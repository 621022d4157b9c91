/**
 The hub's server at work, seen from one load test: every call that a server takes is a step or a run of the
 protocol, from the start of the server on, and so is any sequence of calls. A directive is sent in two parts,
 with any calls in between.
 */
module LoadTestServer {
  import opened Options
  import opened LoadTest
  import opened LoadTestRegistry
  import H = HubServer
  import Runs

  /** One load test, and how its directives are told apart from all others. */
  datatype Scope = Scope(id: H.LoadTestKey, read: H.Directive -> Directive)

  ghost function StateOf(server: H.Server): State
    reads server
  {
    State(server.spokes, server.channels, server.owners)
  }

  /** The server's state, seen from the load test, is the protocol's. */
  ghost predicate Follows(scope: Scope, server: H.Server, w: World)
    reads server
  {
    server.Valid() && Plain(scope.id) && Shows(Through(scope.id, scope.read), StateOf(server), w)
  }

  /** Registrations are only ever added. */
  ghost predicate Grown(s: State, t: State) {
    s.owners <= t.owners && s.channels.Keys <= t.channels.Keys
  }

  ghost predicate SameServer(w: World, v: World) {
    w.hub.Up? && v.hub.Up? && v.hub.epoch == w.hub.epoch && v.history == w.history
  }

  // ---------------------------------------------------------------------
  // Single steps
  // ---------------------------------------------------------------------

  ghost predicate StepsTo(w: World, a: Action, v: World) {
    match Do(w, a)
    case None => false
    case Some(u) => v == u.(now := w.now + 1)
  }

  lemma OneStep(w: World, a: Action, v: World)
    requires StepsTo(w, a, v)
    ensures Run(w, [Step(a, 0)]) == Some(v)
  {
    var s := Step(a, 0);
    assert [s][..0] == [] && Runs.Run(Stepper(), w, []) == Some(w);
    assert Stepper()(w, s) == Next(w, s);
  }

  /** A new server in a protocol without one. */
  method Start(ghost scope: Scope, ghost steps: seq<Step>, ghost w: World) returns (server: H.Server, ghost v: World)
    requires Run(INIT, steps) == Some(w) && !w.hub.Up? && Plain(scope.id)
    ensures fresh(server) && StepsTo(w, ByHub(StartServer), v) && Follows(scope, server, v)
  {
    server := new H.Server();
    StartRefines(scope.id, scope.read, steps, w);
    v := Do(w, ByHub(StartServer)).value.(now := w.now + 1);
  }

  lemma Does(lens: Lens, w: World, a: HubAction, t: State) returns (v: World)
    requires Do(w, ByHub(a)).Some? && Shows(lens, t, Do(w, ByHub(a)).value) && (a.Register? || a.Deregister?)
    ensures Run(w, [Step(ByHub(a), 0)]) == Some(v) && Shows(lens, t, v) && SameServer(w, v)
  {
    v := Do(w, ByHub(a)).value.(now := w.now + 1);
    OneStep(w, ByHub(a), v);
  }

  method RegisterSpoke(server: H.Server, sp: string, cluster: string, cell: string, now: int, ghost scope: Scope,
                       ghost w: World)
    returns (status: H.Status, ghost steps: seq<Step>, ghost v: World)
    requires Follows(scope, server, w)
    modifies server
    ensures Follows(scope, server, v) && Grown(old(StateOf(server)), StateOf(server))
    ensures steps == if status.Ok? then [Step(ByHub(Register(sp, H.Capacity(server.bufferSize))), 0)] else []
    ensures status.Ok? <==> sp != ""
    ensures Run(w, steps) == Some(v) && SameServer(w, v)
  {
    ghost var s := StateOf(server);
    status := server.RegisterSpoke(sp, cluster, cell, now);
    steps, v := [], w;
    if status.Ok? {
      ghost var a := Register(sp, H.Capacity(server.bufferSize));
      RegisterRefines(scope.id, scope.read, s, w, sp, cluster, cell, now, a.capacity);
      ghost var t := AfterRegister(s, sp, H.NewEntry(cluster, cell, now, |s.owners|), a.capacity);
      steps := [Step(ByHub(a), 0)];
      v := Does(Through(scope.id, scope.read), w, a, t);
      assert StateOf(server) == t;
    }
  }

  method DeregisterSpoke(server: H.Server, sp: string, ghost scope: Scope, ghost w: World)
    returns (status: H.Status, ghost steps: seq<Step>, ghost v: World)
    requires Follows(scope, server, w)
    modifies server
    ensures Follows(scope, server, v) && Grown(old(StateOf(server)), StateOf(server))
    ensures steps == if status.Ok? then [Step(ByHub(Deregister(sp)), 0)] else []
    ensures status.Ok? <==> old(sp in server.spokes)
    ensures Run(w, steps) == Some(v) && SameServer(w, v)
  {
    ghost var s := StateOf(server);
    status := server.DeregisterSpoke(sp);
    steps, v := [], w;
    if status.Ok? {
      DeregisterRefines(scope.id, scope.read, s, w, sp);
      steps := [Step(ByHub(Deregister(sp)), 0)];
      v := Does(Through(scope.id, scope.read), w, Deregister(sp), Without(s, sp));
      assert StateOf(server) == Without(s, sp);
    }
  }

  /** The spoke reports phases that its shards have been in, under the names their STARTs gave them. */
  ghost predicate Truthful(scope: Scope, w: World, sp: Spoke, list: seq<H.ReplaySummary>) {
    forall i :: 0 <= i < |list| ==> WellNamed(scope.id, list[i]) && True(w, sp, Said(scope.id, list[i]))
  }

  lemma ReportsKeepServer(w: World, steps: seq<Step>, v: World, sp: Spoke)
    requires Run(w, steps) == Some(v) && AllReports(steps, sp) && w.hub.Up?
    ensures SameServer(w, v)
  {
    if steps == [] {
    } else {
      var n := |steps| - 1;
      var u := Runs.Run(Stepper(), w, steps[..n]).value;
      ReportsKeepServer(w, steps[..n], u, sp);
      assert IsReport(steps[n], sp) && Stepper()(u, steps[n]) == Next(u, steps[n]);
    }
  }

  method ReportReplayStatus(server: H.Server, sp: string, statuses: seq<H.ReplaySummary>, ghost scope: Scope,
                            ghost w: World)
    returns (status: H.Status, ghost steps: seq<Step>, ghost v: World)
    requires Follows(scope, server, w) && Truthful(scope, w, sp, statuses)
    modifies server
    ensures Follows(scope, server, v) && Grown(old(StateOf(server)), StateOf(server))
    ensures Run(w, steps) == Some(v) && AllReports(steps, sp) && (!status.Ok? ==> steps == [])
    ensures SameServer(w, v)
  {
    ghost var s := StateOf(server);
    status := server.ReportReplayStatus(sp, statuses);
    steps, v := [], w;
    if status.Ok? {
      steps, v := ReportsRefine(scope.id, scope.read, s, w, sp, statuses, server.spokes[sp]);
      ReportsKeepServer(w, steps, v, sp);
      assert StateOf(server) == WithEntry(s, sp, server.spokes[sp]);
    }
  }

  method Heartbeat(server: H.Server, sp: string, captures: seq<H.CaptureSummary>, active: int,
                   replays: seq<H.ReplaySummary>, now: int, ghost scope: Scope, ghost w: World)
    returns (status: H.Status, listed: seq<H.LoadTestKey>, complete: bool, ghost steps: seq<Step>, ghost v: World)
    requires Follows(scope, server, w) && Truthful(scope, w, sp, replays)
    modifies server
    ensures Follows(scope, server, v) && Grown(old(StateOf(server)), StateOf(server))
    ensures Run(w, steps) == Some(v) && AllReports(steps, sp) && (!status.Ok? ==> steps == [])
    ensures status.Ok? ==> listed == server.activeLoadTests && complete == server.activeLoadTestsComplete
    ensures SameServer(w, v)
  {
    ghost var s := StateOf(server);
    status, listed, complete := server.Heartbeat(sp, captures, active, replays, now);
    steps, v := [], w;
    if status.Ok? {
      steps, v := ReportsRefine(scope.id, scope.read, s, w, sp, replays, server.spokes[sp]);
      ReportsKeepServer(w, steps, v, sp);
      assert StateOf(server) == WithEntry(s, sp, server.spokes[sp]);
    }
  }

  /** Capture reports are nothing to the load test. */
  method ReportCaptureStatus(server: H.Server, sp: string, statuses: seq<H.CaptureSummary>, ghost scope: Scope,
                             ghost w: World)
    returns (status: H.Status)
    requires Follows(scope, server, w)
    modifies server
    ensures Follows(scope, server, w) && Grown(old(StateOf(server)), StateOf(server))
  {
    ghost var s := StateOf(server);
    status := server.ReportCaptureStatus(sp, statuses);
    if status.Ok? {
      ThroughFits(scope.id, scope.read);
      EntryTouched(Through(scope.id, scope.read), s, w.hub, w.left.stale, w.serial, sp, server.spokes[sp]);
      assert StateOf(server) == WithEntry(s, sp, server.spokes[sp]);
    }
  }

  /** So is clearing the statuses of another load test. */
  method ClearOther(server: H.Server, other: H.LoadTestKey, ghost scope: Scope, ghost w: World)
    requires Follows(scope, server, w) && other != scope.id
    modifies server
    ensures Follows(scope, server, w) && Grown(old(StateOf(server)), StateOf(server))
  {
    ghost var s := StateOf(server);
    server.ClearReplayStatuses(other.namespace, other.name);
    ClearRefines(scope.id, scope.read, s, w, server.spokes, other);
    assert StateOf(server) == s.(spokes := server.spokes);
  }

  /** The reconciler clears the statuses of the load test itself when all STOPs for its deletion were taken. */
  method ClearOnRelease(server: H.Server, id: H.LoadTestKey, ghost scope: Scope, ghost w: World)
    returns (ghost v: World)
    requires Follows(scope, server, w) && id == scope.id
    requires w.job.Stopping? && w.job.why.Deletion? && w.job.ok && Current(w.hub, w.job.srv)
    requires w.job.next == |w.job.lt.status.plan.roster|
    modifies server
    ensures StepsTo(w, ByJob(Stopped), v) && Follows(scope, server, v) && v.job.Releasing?
  {
    ghost var s := StateOf(server);
    server.ClearReplayStatuses(id.namespace, id.name);
    ClearRefines(scope.id, scope.read, s, w, server.spokes, scope.id);
    v := Do(w, ByJob(Stopped)).value.(now := w.now + 1);
    assert StateOf(server) == s.(spokes := server.spokes);
  }

  // ---------------------------------------------------------------------
  // Any sequence of calls
  // ---------------------------------------------------------------------

  datatype Call =
    | RegisterCall(sp: string, cluster: string, cell: string, now: int)
    | DeregisterCall(sp: string)
    | HeartbeatCall(sp: string, captures: seq<H.CaptureSummary>, active: int, replays: seq<H.ReplaySummary>, now: int)
    | ReplayCall(sp: string, replays: seq<H.ReplaySummary>)
    | CaptureCall(sp: string, captures: seq<H.CaptureSummary>)
    | ClearCall(key: H.LoadTestKey)

  /** What may be called at any time: reports are truthful, and the reconciler of the load test itself is at
      other steps than clearing. */
  ghost predicate CallFits(scope: Scope, w: World, c: Call) {
    match c
    case HeartbeatCall(sp, captures, active, replays, now) => Truthful(scope, w, sp, replays)
    case ReplayCall(sp, replays) => Truthful(scope, w, sp, replays)
    case ClearCall(key) => key != scope.id
    case _ => true
  }

  method Serve(server: H.Server, c: Call, ghost scope: Scope, ghost w: World)
    returns (ghost steps: seq<Step>, ghost v: World)
    requires Follows(scope, server, w) && CallFits(scope, w, c)
    modifies server
    ensures Follows(scope, server, v) && Grown(old(StateOf(server)), StateOf(server))
    ensures Run(w, steps) == Some(v) && SameServer(w, v)
  {
    steps, v := [], w;
    match c {
      case RegisterCall(sp, cluster, cell, now) =>
        var status;
        status, steps, v := RegisterSpoke(server, sp, cluster, cell, now, scope, w);
      case DeregisterCall(sp) =>
        var status;
        status, steps, v := DeregisterSpoke(server, sp, scope, w);
      case HeartbeatCall(sp, captures, active, replays, now) =>
        var status, listed, complete;
        status, listed, complete, steps, v := Heartbeat(server, sp, captures, active, replays, now, scope, w);
      case ReplayCall(sp, replays) =>
        var status;
        status, steps, v := ReportReplayStatus(server, sp, replays, scope, w);
      case CaptureCall(sp, captures) =>
        var status := ReportCaptureStatus(server, sp, captures, scope, w);
      case ClearCall(key) =>
        ClearOther(server, key, scope, w);
    }
  }

  ghost predicate CallsFit(scope: Scope, w: World, calls: seq<Call>) {
    forall i :: 0 <= i < |calls| ==> CallFits(scope, w, calls[i])
  }

  lemma StillFits(scope: Scope, w: World, v: World, c: Call)
    requires CallFits(scope, w, c) && v.history == w.history
    ensures CallFits(scope, v, c)
  {
  }

  /** Whatever calls the server takes, in whatever order, the protocol has a run that ends in the same state. */
  method ServeAll(server: H.Server, calls: seq<Call>, ghost scope: Scope, ghost w: World)
    returns (ghost steps: seq<Step>, ghost v: World)
    requires Follows(scope, server, w) && CallsFit(scope, w, calls)
    modifies server
    ensures Follows(scope, server, v) && Grown(old(StateOf(server)), StateOf(server))
    ensures Run(w, steps) == Some(v) && SameServer(w, v)
  {
    steps, v := [], w;
    for i := 0 to |calls|
      invariant Follows(scope, server, v) && Grown(old(StateOf(server)), StateOf(server))
      invariant Run(w, steps) == Some(v) && SameServer(w, v)
    {
      StillFits(scope, w, v, calls[i]);
      ghost var more, u := Serve(server, calls[i], scope, v);
      Runs.Concatenated(Stepper(), w, steps, v, more);
      steps, v := steps + more, u;
    }
  }

  // ---------------------------------------------------------------------
  // Sending, with any calls between the look-up and the attempt
  // ---------------------------------------------------------------------

  /** What an answer of `queueDirective` means in the protocol. */
  function Meaning(w: World, sp: Spoke, t: Target, status: H.Status): Outcome {
    match status
    case Ok => if t.Found? && IsPresent(w.hub, sp, t.gen) then Queued else Misrouted
    case NotFound => NotRegistered
    case _ => BufferFull
  }

  /** An attempt with this target, this answer and this result. */
  ghost predicate Answers(w: World, sp: Spoke, t: Target, d: Directive, status: H.Status, v: World) {
    Send(w, sp, t, d, Meaning(w, sp, t, status)) == Some(v)
  }

  /** The directive goes to the registration that was found, whatever became of it in between, and the answer is
      the protocol's. */
  method QueueAcross(server: H.Server, sp: string, between: seq<Call>, x: H.Directive, ghost scope: Scope,
                     ghost w: World)
    returns (status: H.Status, ghost steps: seq<Step>, ghost u: World, ghost v: World)
    requires Follows(scope, server, w) && CallsFit(scope, w, between)
    modifies server
    ensures Run(w, steps) == Some(u) && SameServer(w, u) && Follows(scope, server, v)
    ensures if sp == "" then status.InvalidArgument? && v == w
            else Answers(u, sp, LookedUp(w, Handle(w.hub.epoch), sp), scope.read(x), status, v)
  {
    if sp == "" {
      return H.InvalidArgument, [], w, w;
    }
    ghost var s := StateOf(server);
    var done, t := Find(server, sp, scope, w);
    steps, u := ServeAll(server, between, scope, w);
    HoldsStill(s, StateOf(server), done, sp);
    status, v := SendFound(server, sp, done, t, x, scope, u);
  }

  /** What a look-up found, if anything, is a registration of the spoke. */
  ghost predicate Holds(s: State, done: Option<nat>, sp: string) {
    done.Some? ==> OwnedBy(s, done.value, sp)
  }

  lemma HoldsStill(s: State, t: State, done: Option<nat>, sp: string)
    requires Holds(s, done, sp) && Grown(s, t)
    ensures Holds(t, done, sp)
  {
    if done.Some? {
      OwnershipStays(s, t, done.value, sp);
    }
  }

  /** The registration that a look-up found in the server of epoch `epoch`. */
  function Aimed(epoch: nat, done: Option<nat>): Target {
    if done.Some? then Found(epoch + 1 + done.value) else Nobody
  }

  /** The look-up alone. */
  method Find(server: H.Server, sp: string, ghost scope: Scope, ghost w: World)
    returns (done: Option<nat>, ghost t: Target)
    requires Follows(scope, server, w)
    ensures w.hub.Up? && t == LookedUp(w, Handle(w.hub.epoch), sp)
    ensures t == Aimed(w.hub.epoch, done) && Holds(StateOf(server), done, sp)
  {
    done := server.LookUp(sp);
    t := Finds(Through(scope.id, scope.read), StateOf(server), w, sp, done);
  }

  lemma Finds(lens: Lens, s: State, w: World, sp: Spoke, done: Option<nat>) returns (t: Target)
    requires Shows(lens, s, w) && done == if sp in s.spokes then Some(s.spokes[sp].done) else None
    ensures w.hub.Up? && t == LookedUp(w, Handle(w.hub.epoch), sp)
    ensures t == Aimed(w.hub.epoch, done) && Holds(s, done, sp)
  {
    LookUpShown(lens, s, w, sp);
    t := LookedUp(w, Handle(w.hub.epoch), sp);
  }

  lemma NobodyThere(w: World, sp: Spoke, d: Directive)
    ensures Answers(w, sp, Nobody, d, H.NotFound, w)
  {
  }

  /** The attempt alone, on what was found at some time. */
  method SendFound(server: H.Server, sp: string, done: Option<nat>, ghost t: Target, x: H.Directive,
                   ghost scope: Scope, ghost w: World)
    returns (status: H.Status, ghost v: World)
    requires Follows(scope, server, w) && Holds(StateOf(server), done, sp)
    requires w.hub.Up? && t == Aimed(w.hub.epoch, done)
    modifies server
    ensures Follows(scope, server, v) && Answers(w, sp, t, scope.read(x), status, v)
  {
    status, v := H.NotFound, w;
    if done.Some? {
      status, v := Attempt(server, sp, done.value, x, scope, w);
    } else {
      NobodyThere(w, sp, scope.read(x));
    }
  }

  method Attempt(server: H.Server, sp: string, done: nat, x: H.Directive, ghost scope: Scope, ghost w: World)
    returns (status: H.Status, ghost v: World)
    requires Follows(scope, server, w) && OwnedBy(StateOf(server), done, sp)
    modifies server
    ensures Follows(scope, server, v) && w.hub.Up?
    ensures Answers(w, sp, Found(w.hub.epoch + 1 + done), scope.read(x), status, v)
  {
    ghost var s := StateOf(server);
    QueueRefines(scope.id, scope.read, s, w, sp, done, x);
    v := Sends(Through(scope.id, scope.read), s, w, sp, done, x, scope.read(x));
    var ok := server.TrySend(done, x);
    status := if ok then H.Ok else H.ResourceExhausted;
    assert StateOf(server) == AfterSend(s, done, x);
  }

  function AfterSend(s: State, done: nat, x: H.Directive): State
    requires done in s.channels
  {
    var c := s.channels[done];
    if |c.items| < c.capacity then WithChannel(s, done, H.Sent(c, x)) else s
  }

  lemma Sends(lens: Lens, s: State, w: World, sp: Spoke, done: nat, x: H.Directive, d: Directive) returns (v: World)
    requires w.hub.Up? && done in s.channels && SendMatches(lens, s, w, sp, done, x, d)
    ensures var ok := |s.channels[done].items| < s.channels[done].capacity;
            Answers(w, sp, Found(w.hub.epoch + 1 + done), d, if ok then H.Ok else H.ResourceExhausted, v)
    ensures Shows(lens, AfterSend(s, done, x), v)
  {
    var gen, ok := Base(w.hub) + done, |s.channels[done].items| < s.channels[done].capacity;
    v := Send(w, sp, Found(gen), d, OutcomeOf(w, sp, gen, ok)).value;
  }

  // ---------------------------------------------------------------------
  // Streams
  // ---------------------------------------------------------------------

  /** `WatchDirectives` looks its registration up; another stream may be there already. */
  method OpenStream(server: H.Server, sp: string, ghost stream: nat, ghost scope: Scope, ghost w: World)
    returns (done: Option<nat>, ghost v: World)
    requires Follows(scope, server, w) && !HasStream(w, sp, stream)
    ensures Follows(scope, server, v)
    ensures if done.Some? then StepsTo(w, BySpoke(Watch(sp, stream)), v) else v == w
    ensures done.Some? ==> OwnedBy(StateOf(server), done.value, sp)
                           && WatchedAt(StateOf(server), v, sp, done.value, stream)
  {
    LookUpShown(Through(scope.id, scope.read), StateOf(server), w, sp);
    done := server.LookUp(sp);
    v := w;
    if done.Some? {
      WatchRefines(scope.id, scope.read, StateOf(server), w, sp, stream);
      v := Opens(Through(scope.id, scope.read), StateOf(server), w, sp, stream);
    }
  }

  lemma Opens(lens: Lens, s: State, w: World, sp: Spoke, stream: nat) returns (v: World)
    requires Do(w, BySpoke(Watch(sp, stream))).Some? && Shows(lens, s, Do(w, BySpoke(Watch(sp, stream))).value)
    ensures StepsTo(w, BySpoke(Watch(sp, stream)), v) && Shows(lens, s, v) && HasStream(v, sp, stream)
  {
    v := Do(w, BySpoke(Watch(sp, stream))).value.(now := w.now + 1);
  }

  /** A watcher takes a directive from the registration it found, replaced or not. */
  method TakeNext(server: H.Server, sp: string, done: nat, ghost stream: nat, ghost scope: Scope, ghost w: World)
    returns (d: Option<H.Directive>, ghost v: World)
    requires Follows(scope, server, w) && OwnedBy(StateOf(server), done, sp)
    requires WatchedAt(StateOf(server), w, sp, done, stream)
    modifies server
    ensures Follows(scope, server, v)
    ensures if d.None? then v == w
            else StepsTo(w, BySpoke(TakeAction(old(StateOf(server)), w, sp, done, stream)), v)
  {
    ghost var s := StateOf(server);
    d := server.TakeDirective(done);
    v := w;
    if d.Some? {
      TakeRefines(scope.id, scope.read, s, w, sp, done, stream);
      v := Takes(Through(scope.id, scope.read), s, w, sp, done, TakeAction(s, w, sp, done, stream));
      assert server.channels[done] == Tail(s.channels[done]);
      assert server.channels == s.channels[done := Tail(s.channels[done])];
    } else {
      assert StateOf(server) == s;
    }
  }

  lemma Takes(lens: Lens, s: State, w: World, sp: Spoke, done: nat, a: SpokeAction) returns (v: World)
    requires done in s.channels && s.channels[done].items != [] && TakeMatches(lens, s, w, sp, done, a)
    ensures StepsTo(w, BySpoke(a), v) && Shows(lens, WithChannel(s, done, Tail(s.channels[done])), v)
  {
    v := Do(w, BySpoke(a)).value.(now := w.now + 1);
  }

  // ---------------------------------------------------------------------
  // What the reconciler reads
  // ---------------------------------------------------------------------

  /** Reading the statuses from the server and counting them gives the numbers that decide the phase. */
  method ReadAndCount(server: H.Server, id: H.LoadTestKey, ghost scope: Scope, ghost w: World)
    returns (completed: nat, failed: nat, running: nat)
    requires Follows(scope, server, w) && id == scope.id
    ensures completed == CountPhase(View(w.hub), Done) && failed == CountPhase(View(w.hub), Broken)
    ensures running == CountPhase(View(w.hub), Active)
  {
    var list := server.ReplayStatuses(id.namespace, id.name);
    StatusesAreView(id, scope.read, StateOf(server), w, list);
    completed, failed, running := CountStatuses(list, View(w.hub));
  }
}
