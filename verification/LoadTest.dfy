/**
 The protocol that runs one distributed load test: the stored resource, the reconciler on the hub,
 the hub's registry of spokes with their bounded directive buffers, the directive streams, the spokes
 with their replay shards, and the orphan collector.

 The state is everything that concerns one load test. Directives for other load tests and captures
 appear only as `Other`: they take up room in the buffers. Every step of every party is an action; a
 run is any sequence of enabled actions, with any amount of time passing in between.
 */
module LoadTest {
  import opened Options
  import opened Collections
  import Runs

  // ---------------------------------------------------------------------
  // The stored resource
  // ---------------------------------------------------------------------

  type Spoke = string

  /** The recorded assignment: the assigned spokes, and for every shard index the spoke that runs it. */
  datatype Plan = Plan(roster: seq<Spoke>, owners: seq<Spoke>)

  const NO_PLAN: Plan := Plan([], [])

  ghost predicate WellPlanned(p: Plan) {
    p.roster != [] && forall i :: 0 <= i < |p.owners| ==> p.owners[i] in p.roster
  }

  datatype Phase = Unset | Pending | Distributing | Running | Completed | Failed | Aborted

  predicate Terminal(p: Phase) {
    p.Completed? || p.Failed? || p.Aborted?
  }

  datatype Status = Status(phase: Phase, plan: Plan, completed: nat, failed: nat)

  datatype Resource = Resource(version: nat, deleting: bool, finalizer: bool, status: Status)

  /** What came of a STOP: taken by the registration `gen`, put into a queue that had been replaced, not
      sent because the spoke was not registered, or refused by a full buffer. `quiet`: no START was left
      from a replaced registration of the spoke at that time. `clear`: no START was left in the registration
      itself, save on a stream that had a STOP behind it. */
  datatype Ack = Taken(gen: nat, quiet: bool, clear: bool) | Misplaced | Missing | Refused

  type Acks = map<Spoke, Ack>

  /** `acks`: how the STOPs were taken before the finalizer was released; None without a hub server. */
  datatype Store = Absent | Present(r: Resource, since: nat) | Gone(acks: Option<Acks>, at: nat)

  // ---------------------------------------------------------------------
  // The hub
  // ---------------------------------------------------------------------

  datatype Directive = Start(index: nat, count: nat) | Stop | Other

  datatype ShardPhase = Waiting | Active | Done | Broken

  /** The streams of a registration: what each has taken from the queue and not delivered yet. */
  type Streams = map<nat, seq<Directive>>

  /** One registration: its streams, which share its buffer, and the reported shards. */
  datatype Entry = Entry(
    gen: nat, capacity: nat, streams: Streams, buffer: seq<Directive>, replays: map<nat, ShardPhase>)

  /** A registration as it is made. */
  function Fresh(gen: nat, capacity: nat): Entry {
    Entry(gen, capacity, map[], [], map[])
  }

  datatype Hub = Down | Up(epoch: nat, entries: map<Spoke, Entry>)

  /** The shards of a spoke after a directive, as far as there are any. */
  function Effect(d: Directive, live: set<nat>): set<nat> {
    match d
    case Start(i, n) => live + {i}
    case Stop => {}
    case Other => live
  }

  /** The shards a spoke has after working off the queue in order. */
  function After(q: seq<Directive>, live: set<nat>): set<nat> {
    if q == [] then live else After(q[1..], Effect(q[0], live))
  }

  /** No START in the queue. */
  predicate Calm(q: seq<Directive>) {
    forall d :: d in q ==> !d.Start?
  }

  /** Whatever the queue starts it also stops. */
  predicate Tidy(q: seq<Directive>) {
    After(q, {}) == {}
  }

  ghost predicate Clear(e: Entry) {
    Calm(e.buffer) && forall id :: id in e.streams ==> Tidy(e.streams[id])
  }

  /** The queue of a replaced registration. */
  datatype Leftover = Leftover(capacity: nat, queue: seq<Directive>)

  /** What replaced registrations leave behind: the queues, in the hub's memory, whose watcher has not noticed
      yet, and the directives that were already sent. */
  datatype Left = Left(stale: map<(Spoke, nat), Leftover>, flying: multiset<(Spoke, Directive)>)

  // ---------------------------------------------------------------------
  // The reconciler
  // ---------------------------------------------------------------------

  /** The server the reconciler got hold of; it may be replaced while the reconciler works. */
  datatype Server = NoServer | Handle(epoch: nat)

  /** What looking a spoke up in the registry gave. Sending a directive is this look-up and then, without the
      lock, an attempt to put the directive into the queue that was found. */
  datatype Target = NotLooked | Nobody | Found(gen: nat)

  type Statuses = map<(Spoke, nat), ShardPhase>

  datatype Reason = Deletion | Policy

  /** Where a reconcile stands, with its own copy of the resource. */
  datatype Job =
    | Idle
    | Begun(lt: Resource, srv: Server)
    | Ready(lt: Resource, srv: Server)
    | Planned(lt: Resource, srv: Server)
    | Starting(lt: Resource, srv: Server, statuses: Statuses, next: nat, target: Target)
    | Deciding(lt: Resource, srv: Server)
    | Stopping(lt: Resource, srv: Server, why: Reason, next: nat, target: Target, ok: bool, answers: Acks)
    | Saving(lt: Resource, acks: Option<Acks>)
    | Releasing(lt: Resource, acks: Option<Acks>)

  // ---------------------------------------------------------------------
  // The world
  // ---------------------------------------------------------------------

  datatype Shard = Shard(count: nat, phase: ShardPhase, born: nat)

  /** One read of the resource list: whether it showed the load test, and when it was made. */
  datatype Listing = Listing(shown: bool, at: nat)

  datatype Launch = Launch(spoke: Spoke, index: nat, count: nat)

  datatype Report = Report(spoke: Spoke, index: nat, phase: ShardPhase)

  /**
   `plan` and `aborted` repeat what was last persisted: the plan, and the acks of the pass that led to
   the Aborted phase. `stopped` holds the registries of stopped servers, which a reconcile may still use.
   `launched`, `history`, `lost` and `shared` record every START ever queued, every phase a shard was ever in,
   the registrations that lost a STOP, and those that had two streams at once.
   */
  datatype World = World(
    now: nat, serial: nat,
    cr: Store, plan: Plan, aborted: Option<Acks>,
    job: Job,
    hub: Hub, left: Left, stopped: map<nat, map<Spoke, nat>>,
    shards: map<(Spoke, nat), Shard>,
    readings: set<Listing>, published: Option<Listing>, heard: set<(Spoke, Listing)>,
    launched: set<Launch>, history: set<Report>, lost: set<nat>, shared: set<nat>)

  const INIT: World :=
    World(0, 0, Absent, NO_PLAN, None, Idle, Down, Left(map[], multiset{}), map[], map[], {}, None, {}, {}, {}, {}, {})

  // ---------------------------------------------------------------------
  // Users
  // ---------------------------------------------------------------------

  datatype UserAction = Create | Delete | Edit

  function User(w: World, a: UserAction): Option<World> {
    match a
    case Create =>
      if !w.cr.Absent? then None
      else Some(w.(cr := Present(Resource(0, false, false, Status(Unset, NO_PLAN, 0, 0)), w.now)))
    case Delete =>
      if !w.cr.Present? then None
      else if !w.cr.r.finalizer then Some(w.(cr := Gone(None, w.now)))
      else Some(w.(cr := w.cr.(r := w.cr.r.(deleting := true, version := w.cr.r.version + 1))))
    case Edit =>
      if !w.cr.Present? then None
      else Some(w.(cr := w.cr.(r := w.cr.r.(version := w.cr.r.version + 1))))
  }

  // ---------------------------------------------------------------------
  // The reconciler's steps
  // ---------------------------------------------------------------------

  /** What became of a directive: queued, refused by a full buffer, refused for want of a registration, or
      put into the queue of a registration that had been replaced since the look-up. */
  datatype Outcome = Queued | BufferFull | NotRegistered | Misrouted

  predicate Current(hub: Hub, srv: Server) {
    hub.Up? && srv.Handle? && hub.epoch == srv.epoch
  }

  function Push(hub: Hub, sp: Spoke, d: Directive): Hub
    requires hub.Up? && sp in hub.entries
  {
    var e := hub.entries[sp];
    hub.(entries := hub.entries[sp := e.(buffer := e.buffer + [d])])
  }

  /** The look-up, in the registry of the running server or in that of the stopped one the reconciler holds. */
  function LookedUp(w: World, srv: Server, sp: Spoke): Target {
    if Current(w.hub, srv) then if sp in w.hub.entries then Found(w.hub.entries[sp].gen) else Nobody
    else if srv.Handle? && srv.epoch in w.stopped && sp in w.stopped[srv.epoch] then Found(w.stopped[srv.epoch][sp])
    else Nobody
  }

  /** The registration is the spoke's present one. */
  predicate IsPresent(hub: Hub, sp: Spoke, gen: nat) {
    hub.Up? && sp in hub.entries && hub.entries[sp].gen == gen
  }

  /** One more directive in the queue of a replaced registration; without a watcher nobody will see it. */
  function Misplace(left: Left, sp: Spoke, gen: nat, d: Directive): Left {
    if (sp, gen) !in left.stale then left
    else
      var l := left.stale[(sp, gen)];
      left.(stale := left.stale[(sp, gen) := l.(queue := l.queue + [d])])
  }

  predicate StaleFull(left: Left, sp: Spoke, gen: nat) {
    (sp, gen) in left.stale && |left.stale[(sp, gen)].queue| >= left.stale[(sp, gen)].capacity
  }

  /** `queueDirective` after the look-up. How full a replaced queue without a watcher is, is not recorded. */
  function Send(w: World, sp: Spoke, t: Target, d: Directive, o: Outcome): Option<World> {
    if t.NotLooked? then None
    else if t.Nobody? then if o.NotRegistered? then Some(w) else None
    else if IsPresent(w.hub, sp, t.gen) then
      var full := |w.hub.entries[sp].buffer| >= w.hub.entries[sp].capacity;
      match o
      case Queued => if full then None else Some(w.(hub := Push(w.hub, sp, d)))
      case BufferFull => if full then Some(w) else None
      case _ => None
    else
      match o
      case Misrouted =>
        if StaleFull(w.left, sp, t.gen) then None else Some(w.(left := Misplace(w.left, sp, t.gen, d)))
      case BufferFull =>
        if (sp, t.gen) in w.left.stale && !StaleFull(w.left, sp, t.gen) then None else Some(w)
      case _ => None
  }

  predicate Accepted(o: Outcome) {
    o.Queued? || o.Misrouted?
  }

  predicate Reported(st: Statuses, index: nat) {
    exists k :: k in st && k.1 == index
  }

  /** `ReplayStatuses`: what the registry knows. */
  ghost function View(hub: Hub): Statuses
    requires hub.Up?
  {
    map sp, i | sp in hub.entries && i in hub.entries[sp].replays :: (sp, i) := hub.entries[sp].replays[i]
  }

  ghost function InPhase(st: Statuses, ph: ShardPhase): set<(Spoke, nat)> {
    set k | k in st && st[k] == ph
  }

  ghost function CountPhase(st: Statuses, ph: ShardPhase): nat {
    |InPhase(st, ph)|
  }

  /** `aggregate`, as far as it decides the phase. */
  ghost function Aggregated(s: Status, st: Statuses): Status {
    var total := |s.plan.owners|;
    var completed, failed := CountPhase(st, Done), CountPhase(st, Broken);
    var phase :=
      if total > 0 && completed == total then Completed
      else if total > 0 && completed + failed == total then Failed
      else if CountPhase(st, Active) > 0 || completed > 0 || failed > 0 then Running
      else s.phase;
    s.(phase := phase, completed := completed, failed := failed)
  }

  predicate Matches(cr: Store, lt: Resource) {
    cr.Present? && cr.r.version == lt.version
  }

  function WithPhase(lt: Resource, p: Phase): Resource {
    lt.(status := lt.status.(phase := p))
  }

  /** No START is left from a replaced registration of the spoke. */
  ghost predicate Quiet(left: Left, sp: Spoke) {
    && (forall k :: k in left.stale && k.0 == sp ==> Calm(left.stale[k].queue))
    && (forall x :: x in left.flying && x.0 == sp ==> !x.1.Start?)
  }

  ghost function AckOf(w: World, sp: Spoke, o: Outcome): Ack {
    match o
    case Queued =>
      if w.hub.Up? && sp in w.hub.entries
      then Taken(w.hub.entries[sp].gen, Quiet(w.left, sp), Clear(w.hub.entries[sp]))
      else Misplaced
    case Misrouted => Misplaced
    case NotRegistered => Missing
    case BufferFull => Refused
  }

  function Cleared(hub: Hub): Hub
    requires hub.Up?
  {
    hub.(entries := map sp | sp in hub.entries :: hub.entries[sp].(replays := map[]))
  }

  datatype JobAction =
    | Begin | Drop | Enter
    | Settled | Deny | AwaitServer | NoSpokes | MakePlan(plan: Plan) | KeepPlan
    | Snapshot(statuses: Statuses)
    | FindOwner | SendStart(outcome: Outcome) | SkipShard | Aggregate
    | Keep | Abort
    | FindSpoke | SendStop(outcome: Outcome) | Stopped
    | Persist | Release

  /** The first steps: fetch, deletion or finalizer. */
  function Open(w: World, a: JobAction): Option<World> {
    match a
    case Begin =>
      if w.job.Idle? && w.cr.Present?
      then Some(w.(job := Begun(w.cr.r, if w.hub.Up? then Handle(w.hub.epoch) else NoServer)))
      else None
    case Drop => Some(w.(job := Idle))
    case Enter =>
      if !w.job.Begun? then None
      else
        var lt, srv := w.job.lt, w.job.srv;
        if lt.deleting then
          if !lt.finalizer then Some(w.(job := Idle))
          else if srv.NoServer? then Some(w.(job := Releasing(lt, None)))
          else Some(w.(job := Stopping(lt, srv, Deletion, 0, NotLooked, true, map[])))
        else if lt.finalizer then Some(w.(job := Ready(lt, srv)))
        else if Matches(w.cr, lt) then
          var r := w.cr.r.(finalizer := true, version := w.cr.r.version + 1);
          Some(w.(cr := w.cr.(r := r), job := Ready(r, srv)))
        else Some(w.(job := Idle))
    case _ => None
  }

  /** From the phase check to the persisted plan. */
  ghost function Prepare(w: World, a: JobAction): Option<World> {
    if !w.job.Ready? then None
    else
      var lt, srv := w.job.lt, w.job.srv;
      if Terminal(lt.status.phase) then
        if a.Settled? then Some(w.(job := Idle)) else None
      else match a
        case Deny => Some(w.(job := Saving(WithPhase(lt, Failed), None)))
        case AwaitServer => if srv.NoServer? then Some(w.(job := Saving(WithPhase(lt, Pending), None))) else None
        case NoSpokes =>
          if srv.Handle? && lt.status.plan.roster == []
          then Some(w.(job := Saving(WithPhase(lt, Pending), None)))
          else None
        case KeepPlan =>
          if srv.Handle? && lt.status.plan.roster != [] then Some(w.(job := Planned(lt, srv))) else None
        case MakePlan(p) =>
          if !srv.Handle? || lt.status.plan.roster != [] || !WellPlanned(p) then None
          else if Matches(w.cr, lt) then
            var r := w.cr.r.(version := w.cr.r.version + 1, status := lt.status.(phase := Distributing, plan := p));
            Some(w.(cr := w.cr.(r := r), plan := p, job := Planned(r, srv)))
          else Some(w.(job := Idle))
        case _ => None
  }

  /** Resending START for the shards that have not reported, then aggregating. */
  ghost function Launching(w: World, a: JobAction): Option<World> {
    match a
    case Snapshot(st) =>
      if w.job.Planned? && (if Current(w.hub, w.job.srv) then st == View(w.hub)
                            else forall k :: k in st ==> Report(k.0, k.1, st[k]) in w.history)
      then Some(w.(job := Starting(w.job.lt, w.job.srv, st, 0, NotLooked)))
      else None
    case SkipShard =>
      if w.job.Starting? && w.job.next < |w.job.lt.status.plan.owners| && Reported(w.job.statuses, w.job.next)
      then Some(w.(job := Starting(w.job.lt, w.job.srv, w.job.statuses, w.job.next + 1, NotLooked)))
      else None
    case FindOwner =>
      if w.job.Starting? && w.job.next < |w.job.lt.status.plan.owners| && !Reported(w.job.statuses, w.job.next)
      then Some(w.(job := Starting(w.job.lt, w.job.srv, w.job.statuses, w.job.next,
                                   LookedUp(w, w.job.srv, w.job.lt.status.plan.owners[w.job.next]))))
      else None
    case SendStart(o) =>
      if w.job.Starting? && w.job.next < |w.job.lt.status.plan.owners| && !Reported(w.job.statuses, w.job.next)
      then SendingStart(w, w.job.lt.status.plan.owners, o)
      else None
    case Aggregate =>
      if w.job.Starting? && w.job.next == |w.job.lt.status.plan.owners|
      then Some(w.(job := Deciding(w.job.lt.(status := Aggregated(w.job.lt.status, w.job.statuses)), w.job.srv)))
      else None
    case _ => None
  }

  function SendingStart(w: World, owners: seq<Spoke>, o: Outcome): Option<World>
    requires w.job.Starting? && w.job.next < |owners|
  {
    var sp, i := owners[w.job.next], w.job.next;
    match Send(w, sp, w.job.target, Start(i, |owners|), o)
    case None => None
    case Some(sent) =>
      Some(sent.(job := Starting(w.job.lt, w.job.srv, w.job.statuses, i + 1, NotLooked),
                 launched := if Accepted(o) then w.launched + {Launch(sp, i, |owners|)} else w.launched))
  }

  /** Aborting or deleting: STOP to every assigned spoke, then the last update. */
  ghost function Ending(w: World, a: JobAction): Option<World> {
    match a
    case Keep => if w.job.Deciding? then Some(w.(job := Saving(w.job.lt, None))) else None
    case Abort =>
      if w.job.Deciding? && (w.job.lt.status.phase.Distributing? || w.job.lt.status.phase.Running?)
      then Some(w.(job := Stopping(w.job.lt, w.job.srv, Policy, 0, NotLooked, true, map[])))
      else None
    case FindSpoke =>
      if w.job.Stopping? && w.job.next < |w.job.lt.status.plan.roster|
      then Some(w.(job := Stopping(w.job.lt, w.job.srv, w.job.why, w.job.next,
                                   LookedUp(w, w.job.srv, w.job.lt.status.plan.roster[w.job.next]),
                                   w.job.ok, w.job.answers)))
      else None
    case SendStop(o) =>
      if w.job.Stopping? && w.job.next < |w.job.lt.status.plan.roster|
      then SendingStop(w, w.job.lt.status.plan.roster, o)
      else None
    case Stopped =>
      if w.job.Stopping? && w.job.next == |w.job.lt.status.plan.roster| then Some(AfterStops(w)) else None
    case Persist =>
      if !w.job.Saving? then None
      else if Matches(w.cr, w.job.lt) then
        Some(w.(cr := w.cr.(r := w.cr.r.(version := w.cr.r.version + 1, status := w.job.lt.status)),
                aborted := if w.job.acks.Some? then w.job.acks else w.aborted, job := Idle))
      else Some(w.(job := Idle))
    case Release =>
      if !w.job.Releasing? then None
      else if Matches(w.cr, w.job.lt) then Some(w.(cr := Gone(w.job.acks, w.now), job := Idle))
      else Some(w.(job := Idle))
    case _ => None
  }

  ghost function SendingStop(w: World, roster: seq<Spoke>, o: Outcome): Option<World>
    requires w.job.Stopping? && w.job.next < |roster|
  {
    var sp := roster[w.job.next];
    match Send(w, sp, w.job.target, Stop, o)
    case None => None
    case Some(sent) =>
      Some(sent.(job := Stopping(w.job.lt, w.job.srv, w.job.why, w.job.next + 1, NotLooked,
                                 w.job.ok && !o.BufferFull?, w.job.answers[sp := AckOf(w, sp, o)])))
  }

  function AfterStops(w: World): World
    requires w.job.Stopping?
  {
    var j := w.job;
    match j.why
    case Policy =>
      w.(job := if j.ok then Saving(WithPhase(j.lt, Aborted), Some(j.answers)) else Saving(j.lt, None))
    case Deletion =>
      if j.ok then
        w.(job := Releasing(j.lt, Some(j.answers)), hub := if Current(w.hub, j.srv) then Cleared(w.hub) else w.hub)
      else w.(job := Idle)
  }

  // ---------------------------------------------------------------------
  // The registry's steps
  // ---------------------------------------------------------------------

  /** The directives of this load test in a queue. */
  ghost function Tagged(sp: Spoke, q: seq<Directive>): multiset<(Spoke, Directive)> {
    if q == [] then multiset{}
    else if q[0].Other? then Tagged(sp, q[1..])
    else multiset{(sp, q[0])} + Tagged(sp, q[1..])
  }

  ghost function OnStreams(sp: Spoke, streams: Streams): map<nat, multiset<(Spoke, Directive)>> {
    map id | id in streams :: Tagged(sp, streams[id])
  }

  /** What a registration leaves behind: the queue only if a watcher is at it. */
  ghost function Retire(left: Left, sp: Spoke, e: Entry): Left {
    Left(if e.streams != map[] then left.stale[(sp, e.gen) := Leftover(e.capacity, e.buffer)] else left.stale,
         left.flying + Bag(OnStreams(sp, e.streams)))
  }

  ghost function RetireAll(left: Left, entries: map<Spoke, Entry>): Left
    decreases entries
  {
    if entries == map[] then left
    else
      var sp :| sp in entries;
      RetireAll(Retire(left, sp, entries[sp]), entries - {sp})
  }

  ghost function Retired(w: World, sp: Spoke): Left
    requires w.hub.Up?
  {
    if sp in w.hub.entries then Retire(w.left, sp, w.hub.entries[sp]) else w.left
  }

  /** The end of the hub's process: buffers and watchers are gone, and only what was already sent remains. */
  ghost function Crashed(w: World): Left {
    Left(map[], if w.hub.Up? then RetireAll(w.left, w.hub.entries).flying else w.left.flying)
  }

  function Gens(entries: map<Spoke, Entry>): map<Spoke, nat> {
    map sp | sp in entries :: entries[sp].gen
  }

  datatype HubAction =
    | StartServer | StopServer | Crash
    | Register(sp: Spoke, capacity: nat) | Deregister(sp: Spoke) | SendOther(sp: Spoke)

  ghost function Registry(w: World, a: HubAction): Option<World> {
    match a
    case StartServer => if w.hub.Up? then None else Some(w.(hub := Up(w.serial, map[]), serial := w.serial + 1))
    case StopServer =>
      if !w.hub.Up? then None
      else Some(w.(hub := Down, left := RetireAll(w.left, w.hub.entries), published := None,
                   stopped := w.stopped[w.hub.epoch := Gens(w.hub.entries)]))
    case Crash => Some(w.(hub := Down, left := Crashed(w), stopped := map[], published := None, job := Idle))
    case Register(sp, capacity) =>
      if !w.hub.Up? then None
      else Some(w.(hub := w.hub.(entries := w.hub.entries[sp := Fresh(w.serial, capacity)]),
                   left := Retired(w, sp), serial := w.serial + 1))
    case Deregister(sp) =>
      if !w.hub.Up? || sp !in w.hub.entries then None
      else Some(w.(hub := w.hub.(entries := w.hub.entries - {sp}), left := Retired(w, sp)))
    case SendOther(sp) =>
      if !w.hub.Up? || sp !in w.hub.entries || |w.hub.entries[sp].buffer| >= w.hub.entries[sp].capacity then None
      else Some(w.(hub := Push(w.hub, sp, Other)))
  }

  // ---------------------------------------------------------------------
  // The streams and the spokes
  // ---------------------------------------------------------------------

  /** `Handle` on a spoke: START creates a missing shard, STOP deletes the shards of the load test. */
  function Handled(shards: map<(Spoke, nat), Shard>, sp: Spoke, d: Directive, now: nat): map<(Spoke, nat), Shard> {
    match d
    case Start(i, n) => if (sp, i) in shards then shards else shards[(sp, i) := Shard(n, Waiting, now)]
    case Stop => map k | k in shards && k.0 != sp :: shards[k]
    case Other => shards
  }

  function Born(sp: Spoke, d: Directive): set<Report> {
    if d.Start? then {Report(sp, d.index, Waiting)} else {}
  }

  function Update(w: World, sp: Spoke, e: Entry): Hub
    requires w.hub.Up?
  {
    w.hub.(entries := w.hub.entries[sp := e])
  }

  datatype SpokeAction =
    | Watch(sp: Spoke, id: nat) | HangUp(sp: Spoke, id: nat)
    | Pop(sp: Spoke, id: nat) | Receive(sp: Spoke, id: nat) | Lose(sp: Spoke, id: nat, n: nat)
    | StaleSends(sp: Spoke, gen: nat) | WatcherLeaves(sp: Spoke, gen: nat)
    | LateArrives(sp: Spoke, d: Directive) | LateLost(sp: Spoke, d: Directive)
    | RunShard(sp: Spoke, index: nat, phase: ShardPhase) | SendReport(sp: Spoke, index: nat, phase: ShardPhase)

  predicate HasStream(w: World, sp: Spoke, id: nat) {
    w.hub.Up? && sp in w.hub.entries && id in w.hub.entries[sp].streams
  }

  /** Another content of one stream. */
  function WithStream(e: Entry, id: nat, q: seq<Directive>): Entry {
    e.(streams := e.streams[id := q])
  }

  /** The streams of the present registration: their watchers take directives from the one queue and send
      them. A spoke process has one stream at a time, but two processes may work for the spoke. A stream that
      has ended counts until what it has sent is delivered or lost. */
  function Stream(w: World, a: SpokeAction): Option<World> {
    match a
    case Watch(sp, id) =>
      if !w.hub.Up? || sp !in w.hub.entries || id in w.hub.entries[sp].streams then None
      else
        var e := w.hub.entries[sp];
        Some(w.(hub := Update(w, sp, WithStream(e, id, [])),
                shared := if e.streams == map[] then w.shared else w.shared + {e.gen}))
    case HangUp(sp, id) =>
      if !HasStream(w, sp, id) || w.hub.entries[sp].streams[id] != [] then None
      else
        var e := w.hub.entries[sp];
        Some(w.(hub := Update(w, sp, e.(streams := e.streams - {id}))))
    case Pop(sp, id) =>
      if !HasStream(w, sp, id) || w.hub.entries[sp].buffer == [] then None
      else
        var e := w.hub.entries[sp];
        Some(w.(hub := Update(w, sp, WithStream(e, id, e.streams[id] + [e.buffer[0]]).(buffer := e.buffer[1..]))))
    case Receive(sp, id) =>
      if !HasStream(w, sp, id) || w.hub.entries[sp].streams[id] == [] then None
      else
        var e := w.hub.entries[sp];
        var q := e.streams[id];
        Some(w.(hub := Update(w, sp, WithStream(e, id, q[1..])), shards := Handled(w.shards, sp, q[0], w.now),
                history := w.history + Born(sp, q[0])))
    case Lose(sp, id, n) =>
      if !HasStream(w, sp, id) || n > |w.hub.entries[sp].streams[id]| then None
      else
        var e := w.hub.entries[sp];
        var q := e.streams[id];
        Some(w.(hub := Update(w, sp, WithStream(e, id, q[n..])),
                lost := if Stop in q[..n] then w.lost + {e.gen} else w.lost))
    case _ => None
  }

  /** The streams of replaced registrations. Their watchers go on until they notice. */
  ghost function LateStream(w: World, a: SpokeAction): Option<World> {
    match a
    case StaleSends(sp, g) =>
      if (sp, g) !in w.left.stale || w.left.stale[(sp, g)].queue == [] then None
      else
        var l := w.left.stale[(sp, g)];
        Some(w.(left := Left(w.left.stale[(sp, g) := l.(queue := l.queue[1..])],
                             w.left.flying + Tagged(sp, l.queue[..1]))))
    case WatcherLeaves(sp, g) =>
      if (sp, g) !in w.left.stale then None else Some(w.(left := w.left.(stale := w.left.stale - {(sp, g)})))
    case LateArrives(sp, d) =>
      if (sp, d) !in w.left.flying then None
      else Some(w.(left := w.left.(flying := w.left.flying - multiset{(sp, d)}),
                   shards := Handled(w.shards, sp, d, w.now), history := w.history + Born(sp, d)))
    case LateLost(sp, d) =>
      if (sp, d) !in w.left.flying then None
      else Some(w.(left := w.left.(flying := w.left.flying - multiset{(sp, d)})))
    case _ => None
  }

  function Shards(w: World, a: SpokeAction): Option<World> {
    match a
    case RunShard(sp, i, ph) =>
      if (sp, i) !in w.shards || w.shards[(sp, i)].phase.Done? || w.shards[(sp, i)].phase.Broken? then None
      else Some(w.(shards := w.shards[(sp, i) := w.shards[(sp, i)].(phase := ph)],
                   history := w.history + {Report(sp, i, ph)}))
    case SendReport(sp, i, ph) =>
      if !w.hub.Up? || sp !in w.hub.entries || Report(sp, i, ph) !in w.history then None
      else
        var e := w.hub.entries[sp];
        Some(w.(hub := Update(w, sp, e.(replays := e.replays[i := ph]))))
    case _ => None
  }

  ghost function Remote(w: World, a: SpokeAction): Option<World> {
    if a.Watch? || a.HangUp? || a.Pop? || a.Receive? || a.Lose? then Stream(w, a)
    else if a.RunShard? || a.SendReport? then Shards(w, a)
    else LateStream(w, a)
  }

  // ---------------------------------------------------------------------
  // The list of load tests and the orphan collector
  // ---------------------------------------------------------------------

  const MIN_AGE: nat := 120_000_000_000

  datatype ListAction =
    | ReadList | Publish(l: Listing) | PublishNothing | Hear(sp: Spoke) | Collect(sp: Spoke, l: Listing)

  predicate Orphaned(k: (Spoke, nat), s: Shard, sp: Spoke, l: Listing, now: int) {
    k.0 == sp && !l.shown && now - s.born >= MIN_AGE
  }

  function Lists(w: World, a: ListAction): Option<World> {
    match a
    case ReadList => Some(w.(readings := w.readings + {Listing(w.cr.Present?, w.now)}))
    case Publish(l) => if w.hub.Up? && l in w.readings then Some(w.(published := Some(l))) else None
    case PublishNothing => if w.hub.Up? then Some(w.(published := None)) else None
    case Hear(sp) =>
      if w.hub.Up? && sp in w.hub.entries && w.published.Some?
      then Some(w.(heard := w.heard + {(sp, w.published.value)}))
      else None
    case Collect(sp, l) =>
      if (sp, l) !in w.heard then None
      else Some(w.(shards := map k | k in w.shards && !Orphaned(k, w.shards[k], sp, l, w.now) :: w.shards[k]))
  }

  // ---------------------------------------------------------------------
  // Runs
  // ---------------------------------------------------------------------

  datatype Action =
    | ByUser(user: UserAction) | ByJob(job: JobAction) | ByHub(hub: HubAction)
    | BySpoke(spoke: SpokeAction) | ByList(list: ListAction)

  ghost function Reconcile(w: World, a: JobAction): Option<World> {
    if a.Begin? || a.Drop? || a.Enter? then Open(w, a)
    else if a.Settled? || a.Deny? || a.AwaitServer? || a.NoSpokes? || a.MakePlan? || a.KeepPlan? then Prepare(w, a)
    else if a.Snapshot? || a.FindOwner? || a.SendStart? || a.SkipShard? || a.Aggregate? then Launching(w, a)
    else Ending(w, a)
  }

  /** The resource keeps its age, and disappears only now. */
  predicate Ages(before: Store, after: Store, now: nat) {
    || after == before
    || (before.Present? && after.Present? && after.since == before.since)
    || (before.Present? && after.Gone? && after.at == now)
  }

  lemma OpeningFrame(w: World, j: JobAction, v: World)
    requires Open(w, j) == Some(v) || Prepare(w, j) == Some(v)
    ensures v == w.(cr := v.cr, plan := v.plan, job := v.job) && Ages(w.cr, v.cr, w.now)
  {
  }

  lemma LaunchingFrame(w: World, j: JobAction, v: World)
    requires Launching(w, j) == Some(v)
    ensures v == w.(job := v.job, hub := v.hub, left := v.left, launched := v.launched)
  {
  }

  lemma EndingFrame(w: World, j: JobAction, v: World)
    requires Ending(w, j) == Some(v)
    ensures v == w.(cr := v.cr, aborted := v.aborted, job := v.job, hub := v.hub, left := v.left)
    ensures Ages(w.cr, v.cr, w.now)
  {
  }

  /** What a reconcile cannot touch. */
  lemma JobFrame(w: World, j: JobAction, v: World)
    requires Reconcile(w, j) == Some(v)
    ensures v.now == w.now && v.serial == w.serial && v.shards == w.shards && v.history == w.history
    ensures v.lost == w.lost && v.shared == w.shared
    ensures v.readings == w.readings && v.published == w.published && v.heard == w.heard && Ages(w.cr, v.cr, w.now)
  {
    if Open(w, j) == Some(v) || Prepare(w, j) == Some(v) {
      OpeningFrame(w, j, v);
    } else if Launching(w, j) == Some(v) {
      LaunchingFrame(w, j, v);
    } else {
      EndingFrame(w, j, v);
    }
  }

  /** What the registry's steps cannot touch. */
  lemma RegistryFrame(w: World, a: HubAction, v: World)
    requires Registry(w, a) == Some(v)
    ensures v.cr == w.cr && v.plan == w.plan && v.aborted == w.aborted && v.shards == w.shards && v.now == w.now
    ensures v.launched == w.launched && v.history == w.history && v.lost == w.lost && v.shared == w.shared
    ensures v.readings == w.readings && v.heard == w.heard && (v.job == w.job || v.job.Idle?)
    ensures v.serial >= w.serial && (v.published == w.published || v.published.None?)
  {
  }

  /** What the streams and the spokes cannot touch. */
  lemma RemoteFrame(w: World, a: SpokeAction, v: World)
    requires Remote(w, a) == Some(v)
    ensures v == w.(hub := v.hub, left := v.left, shards := v.shards, history := v.history, lost := v.lost,
                    shared := v.shared)
    ensures w.history <= v.history && w.lost <= v.lost && w.shared <= v.shared
  {
  }

  ghost function Do(w: World, a: Action): Option<World> {
    match a
    case ByUser(u) => User(w, u)
    case ByJob(j) => Reconcile(w, j)
    case ByHub(h) => Registry(w, h)
    case BySpoke(s) => Remote(w, s)
    case ByList(l) => Lists(w, l)
  }

  /** One step; the clock moves on by more than zero. */
  datatype Step = Step(action: Action, pause: nat)

  ghost function Next(w: World, s: Step): Option<World> {
    match Do(w, s.action)
    case None => None
    case Some(v) => Some(v.(now := w.now + 1 + s.pause))
  }

  ghost function Stepper(): (World, Step) -> Option<World> {
    (w: World, s: Step) => Next(w, s)
  }

  ghost function Run(w: World, steps: seq<Step>): Option<World> {
    Runs.Run(Stepper(), w, steps)
  }

  lemma RunInduction(inv: World -> bool, ok: Step -> bool, w: World, steps: seq<Step>, v: World)
    requires inv(w) && Run(w, steps) == Some(v)
    requires forall x, s :: inv(x) && Next(x, s).Some? ==> inv(Next(x, s).value) && ok(s)
    ensures inv(v) && forall i :: 0 <= i < |steps| ==> ok(steps[i])
  {
    assert forall x, s :: Stepper()(x, s) == Next(x, s);
    Runs.Induction(Stepper(), inv, ok, w, steps, v);
  }
}
