/**
 The orphan collector: it never deletes a shard of a load test that still exists as long as the list it
 acts on is fresh enough, and once the load test is gone it makes every fair run end without a shard,
 whatever directives were lost.
 */
module LoadTestCleanup {
  import opened Options
  import opened LoadTest
  import opened LoadTestPlan
  import opened LoadTestStop
  import opened Collections

  // ---------------------------------------------------------------------
  // Time
  // ---------------------------------------------------------------------

  /** What a list can show: before its creation the load test is missing, after its removal too. */
  ghost predicate ReadingFits(l: Listing, cr: Store) {
    match cr
    case Absent => !l.shown
    case Present(r, since) => l.shown || l.at < since
    case Gone(acks, at) => l.shown ==> l.at < at
  }

  ghost predicate ReadingsFit(readings: set<Listing>, cr: Store, now: nat) {
    forall l :: l in readings ==> l.at < now && ReadingFits(l, cr)
  }

  ghost predicate HeardFits(w: World) {
    && (w.published.Some? ==> w.published.value in w.readings)
    && forall x :: x in w.heard ==> x.1 in w.readings
  }

  ghost predicate BirthsFit(shards: map<(Spoke, nat), Shard>, cr: Store, now: nat) {
    forall k :: k in shards ==> shards[k].born < now && (cr.Present? ==> cr.since < shards[k].born)
  }

  ghost predicate StoreFits(cr: Store, now: nat) {
    match cr
    case Absent => true
    case Present(r, since) => since < now
    case Gone(acks, at) => at < now
  }

  ghost predicate TimeInv(w: World) {
    && StoreFits(w.cr, w.now) && ReadingsFit(w.readings, w.cr, w.now)
    && HeardFits(w) && BirthsFit(w.shards, w.cr, w.now)
  }

  lemma TimeJob(w: World, j: JobAction, v: World, now: nat)
    requires TimeInv(w) && Reconcile(w, j) == Some(v) && now > w.now
    ensures TimeInv(v.(now := now))
  {
    JobFrame(w, j, v);
  }

  lemma TimeRegistry(w: World, a: HubAction, v: World, now: nat)
    requires TimeInv(w) && Registry(w, a) == Some(v) && now > w.now
    ensures TimeInv(v.(now := now))
  {
    RegistryFrame(w, a, v);
  }

  lemma TimeRemote(w: World, a: SpokeAction, v: World, now: nat)
    requires TimeInv(w) && Remote(w, a) == Some(v) && now > w.now
    ensures TimeInv(v.(now := now))
  {
    RemoteFrame(w, a, v);
    assert forall k :: k in v.shards ==>
      (k in w.shards && v.shards[k].born == w.shards[k].born) || v.shards[k].born == w.now;
  }

  lemma TimeLists(w: World, a: ListAction, v: World, now: nat)
    requires TimeInv(w) && Lists(w, a) == Some(v) && now > w.now
    ensures TimeInv(v.(now := now))
  {
    assert v.cr == w.cr;
  }

  lemma TimeUser(w: World, a: UserAction, v: World, now: nat)
    requires TimeInv(w) && PlanInv(w) && User(w, a) == Some(v) && now > w.now
    ensures TimeInv(v.(now := now))
  {
    assert v == w.(cr := v.cr);
  }

  lemma NextKeepsTime(w: World, s: Step)
    requires TimeInv(w) && PlanInv(w) && Next(w, s).Some?
    ensures TimeInv(Next(w, s).value)
  {
    var v, now := Do(w, s.action).value, w.now + 1 + s.pause;
    match s.action
    case ByUser(u) => TimeUser(w, u, v, now);
    case ByJob(j) => TimeJob(w, j, v, now);
    case ByHub(h) => TimeRegistry(w, h, v, now);
    case BySpoke(a) => TimeRemote(w, a, v, now);
    case ByList(l) => TimeLists(w, l, v, now);
  }

  ghost predicate CleanInv(w: World) {
    PlanInv(w) && StopInv(w) && TimeInv(w)
  }

  lemma NextKeepsClean(w: World, s: Step)
    requires CleanInv(w) && Next(w, s).Some?
    ensures CleanInv(Next(w, s).value)
  {
    NextKeepsStop(w, s);
    NextKeepsTime(w, s);
  }

  lemma CleanHolds(steps: seq<Step>, w: World)
    requires Run(INIT, steps) == Some(w)
    ensures CleanInv(w)
  {
    forall x, s | CleanInv(x) && Next(x, s).Some? ensures CleanInv(Next(x, s).value) {
      NextKeepsClean(x, s);
    }
    RunInduction(x => CleanInv(x), s => true, INIT, steps, w);
  }

  // ---------------------------------------------------------------------
  // The collector spares the living
  // ---------------------------------------------------------------------

  /** In every reachable state: a collection that acts on a list read at most MIN_AGE ago leaves all shards
      of a load test that still exists. */
  lemma CollectorSparesTheLiving(steps: seq<Step>, w: World, sp: Spoke, l: Listing, v: World)
    requires Run(INIT, steps) == Some(w) && Do(w, ByList(Collect(sp, l))) == Some(v)
    requires w.cr.Present? && w.now - l.at <= MIN_AGE
    ensures v.shards == w.shards
  {
    CleanHolds(steps, w);
    forall k | k in w.shards ensures !Orphaned(k, w.shards[k], sp, l, w.now) {
      assert l in w.readings && ReadingFits(l, w.cr);
    }
  }

  // ---------------------------------------------------------------------
  // Directives still in flight
  // ---------------------------------------------------------------------

  /** Directives of the load test in a registration: on its streams and in its queue. */
  ghost function HeldBy(sp: Spoke, e: Entry): multiset<(Spoke, Directive)> {
    Bag(OnStreams(sp, e.streams)) + Tagged(sp, e.buffer)
  }

  ghost function Queues(entries: map<Spoke, Entry>): map<Spoke, multiset<(Spoke, Directive)>> {
    map sp | sp in entries :: HeldBy(sp, entries[sp])
  }

  ghost function Stale(stale: map<(Spoke, nat), Leftover>): map<(Spoke, nat), multiset<(Spoke, Directive)>> {
    map k | k in stale :: Tagged(k.0, stale[k].queue)
  }

  /** Directives of the load test left from replaced registrations. */
  ghost function Behind(left: Left): multiset<(Spoke, Directive)> {
    left.flying + Bag(Stale(left.stale))
  }

  /** Directives of the load test that may still reach a spoke. */
  ghost function InFlight(hub: Hub, left: Left): multiset<(Spoke, Directive)> {
    if hub.Up? then Behind(left) + Bag(Queues(hub.entries)) else Behind(left)
  }

  lemma {:induction false} TaggedAppend(sp: Spoke, p: seq<Directive>, q: seq<Directive>)
    ensures Tagged(sp, p + q) == Tagged(sp, p) + Tagged(sp, q)
  {
    if p == [] {
      assert p + q == q;
    } else {
      assert (p + q)[1..] == p[1..] + q;
      TaggedAppend(sp, p[1..], q);
    }
  }

  lemma QueuesSet(entries: map<Spoke, Entry>, sp: Spoke, e: Entry)
    ensures Queues(entries[sp := e]) == Queues(entries)[sp := HeldBy(sp, e)]
    ensures Queues(entries - {sp}) == Queues(entries) - {sp}
  {
  }

  /** Replacing one queue by another. */
  lemma QueuesUpdate(entries: map<Spoke, Entry>, sp: Spoke, e: Entry)
    ensures Bag(Queues(entries[sp := e])) == HeldBy(sp, e) + Bag(Queues(entries - {sp}))
    ensures Bag(Queues(entries))
         == (if sp in entries then HeldBy(sp, entries[sp]) else multiset{}) + Bag(Queues(entries - {sp}))
  {
    QueuesSet(entries, sp, e);
    BagChange(Queues(entries), sp, HeldBy(sp, e));
  }

  lemma StaleUpdate(stale: map<(Spoke, nat), Leftover>, k: (Spoke, nat), l: Leftover)
    ensures Bag(Stale(stale[k := l])) == Tagged(k.0, l.queue) + Bag(Stale(stale - {k}))
    ensures k in stale ==> Bag(Stale(stale)) == Tagged(k.0, stale[k].queue) + Bag(Stale(stale - {k}))
    ensures Bag(Stale(stale - {k})) <= Bag(Stale(stale))
  {
    var ss := Stale(stale);
    assert Stale(stale[k := l]) == ss[k := Tagged(k.0, l.queue)] && Stale(stale - {k}) == ss - {k};
    BagUpdate(ss, k, Tagged(k.0, l.queue));
    BagLess(ss, k);
    if k in stale {
      BagAny(ss, k);
    }
  }

  /** A replaced registration leaves no more than it had. */
  lemma RetireBehind(left: Left, sp: Spoke, e: Entry)
    ensures Behind(Retire(left, sp, e)) <= Behind(left) + HeldBy(sp, e)
  {
    StaleUpdate(left.stale, (sp, e.gen), Leftover(e.capacity, e.buffer));
  }

  lemma MoveOver<T>(a: multiset<T>, b: multiset<T>, c: multiset<T>, d: multiset<T>, bc: multiset<T>, t: multiset<T>)
    requires d <= t + c && t <= a + b && bc == b + c
    ensures d <= a + bc
  {
  }

  lemma {:induction false} RetireAllBehind(left: Left, entries: map<Spoke, Entry>)
    ensures Behind(RetireAll(left, entries)) <= Behind(left) + Bag(Queues(entries))
    decreases entries
  {
    if entries == map[] {
    } else {
      var sp :| sp in entries && RetireAll(left, entries) == RetireAll(Retire(left, sp, entries[sp]), entries - {sp});
      var e, rest := entries[sp], entries - {sp};
      RetireBehind(left, sp, e);
      RetireAllBehind(Retire(left, sp, e), rest);
      QueuesUpdate(entries, sp, e);
      MoveOver(Behind(left), HeldBy(sp, e), Bag(Queues(rest)), Behind(RetireAll(left, entries)),
               Bag(Queues(entries)), Behind(Retire(left, sp, e)));
    }
  }

  lemma CrashBehind(w: World)
    ensures Behind(Crashed(w)) <= InFlight(w.hub, w.left)
  {
    assert Stale(map[]) == map[];
    if w.hub.Up? {
      RetireAllBehind(w.left, w.hub.entries);
    }
  }

  lemma RegisterInFlight(w: World, sp: Spoke, e: Entry)
    requires w.hub.Up? && HeldBy(sp, e) == multiset{}
    ensures InFlight(Update(w, sp, e), Retired(w, sp)) <= InFlight(w.hub, w.left)
  {
    QueuesUpdate(w.hub.entries, sp, e);
    if sp in w.hub.entries {
      RetireBehind(w.left, sp, w.hub.entries[sp]);
    }
  }

  lemma DeregisterInFlight(w: World, sp: Spoke)
    requires w.hub.Up? && sp in w.hub.entries
    ensures Behind(Retired(w, sp)) + Bag(Queues(w.hub.entries - {sp})) <= InFlight(w.hub, w.left)
  {
    QueuesUpdate(w.hub.entries, sp, w.hub.entries[sp]);
    RetireBehind(w.left, sp, w.hub.entries[sp]);
  }

  lemma SameQueue(w: World, sp: Spoke, e: Entry)
    requires w.hub.Up? && sp in w.hub.entries && HeldBy(sp, e) == HeldBy(sp, w.hub.entries[sp])
    ensures InFlight(Update(w, sp, e), w.left) == InFlight(w.hub, w.left)
  {
    QueuesUpdate(w.hub.entries, sp, e);
  }

  lemma OtherInFlight(w: World, sp: Spoke)
    requires w.hub.Up? && sp in w.hub.entries
    ensures InFlight(Push(w.hub, sp, Other), w.left) == InFlight(w.hub, w.left)
  {
    var e := w.hub.entries[sp];
    var f := e.(buffer := e.buffer + [Other]);
    TaggedAppend(sp, e.buffer, [Other]);
    assert Tagged(sp, [Other]) == multiset{} by { assert [Other][1..] == []; }
    SameQueue(w, sp, f);
  }

  lemma FreshWaits(sp: Spoke, gen: nat, capacity: nat)
    ensures HeldBy(sp, Fresh(gen, capacity)) == multiset{}
  {
    assert OnStreams(sp, map[]) == map[];
  }

  lemma RegistryInFlight(w: World, a: HubAction, v: World)
    requires Registry(w, a) == Some(v)
    ensures InFlight(v.hub, v.left) <= InFlight(w.hub, w.left) && v.shards == w.shards
  {
    match a
    case StartServer => assert Queues(map[]) == map[];
    case StopServer => RetireAllBehind(w.left, w.hub.entries);
    case Crash => CrashBehind(w);
    case Register(sp, capacity) =>
      FreshWaits(sp, w.serial, capacity);
      RegisterInFlight(w, sp, v.hub.entries[sp]);
    case Deregister(sp) => DeregisterInFlight(w, sp);
    case SendOther(sp) => OtherInFlight(w, sp);
  }

  /** A queue holds a directive of the load test. */
  ghost predicate HoldsSome(q: seq<Directive>) {
    exists d :: d in q && !d.Other?
  }

  ghost predicate HoldsFirst(q: seq<Directive>, n: nat) {
    n <= |q| && HoldsSome(q[..n])
  }

  /** A directive of the load test is delivered or lost. */
  ghost predicate Consumes(w: World, a: Action) {
    a.BySpoke? && match a.spoke
      case Receive(sp, id) => HasStream(w, sp, id) && HoldsFirst(w.hub.entries[sp].streams[id], 1)
      case Lose(sp, id, n) => HasStream(w, sp, id) && HoldsFirst(w.hub.entries[sp].streams[id], n)
      case WatcherLeaves(sp, g) => (sp, g) in w.left.stale && HoldsSome(w.left.stale[(sp, g)].queue)
      case LateArrives(sp, d) => true
      case LateLost(sp, d) => true
      case _ => false
  }

  lemma TaggedSome(sp: Spoke, q: seq<Directive>)
    requires HoldsSome(q)
    ensures |Tagged(sp, q)| > 0
  {
    var d :| d in q && !d.Other?;
    TaggedIn(sp, q, (sp, d));
  }

  /** What is left when a part is taken away. */
  lemma Smaller<T>(after: multiset<T>, part: multiset<T>, before: multiset<T>)
    requires after + part == before
    ensures after <= before && (|part| > 0 ==> |after| < |before|)
  {
  }

  lemma StreamsSet(sp: Spoke, streams: Streams, id: nat, q: seq<Directive>)
    ensures OnStreams(sp, streams[id := q]) == OnStreams(sp, streams)[id := Tagged(sp, q)]
    ensures OnStreams(sp, streams - {id}) == OnStreams(sp, streams) - {id}
  {
  }

  /** Another content of one stream. */
  lemma StreamsUpdate(sp: Spoke, streams: Streams, id: nat, q: seq<Directive>)
    ensures Bag(OnStreams(sp, streams[id := q])) == Tagged(sp, q) + Bag(OnStreams(sp, streams - {id}))
    ensures Bag(OnStreams(sp, streams))
         == (if id in streams then Tagged(sp, streams[id]) else multiset{}) + Bag(OnStreams(sp, streams - {id}))
  {
    StreamsSet(sp, streams, id, q);
    BagChange(OnStreams(sp, streams), id, Tagged(sp, q));
  }

  /** A front part leaves a stream. */
  lemma DropFront(sp: Spoke, e: Entry, id: nat, n: nat)
    requires id in e.streams && n <= |e.streams[id]|
    ensures HeldBy(sp, WithStream(e, id, e.streams[id][n..])) + Tagged(sp, e.streams[id][..n]) == HeldBy(sp, e)
  {
    var q := e.streams[id];
    assert q == q[..n] + q[n..];
    TaggedAppend(sp, q[..n], q[n..]);
    StreamsUpdate(sp, e.streams, id, q[n..]);
  }

  lemma PopWaits(sp: Spoke, e: Entry, id: nat)
    requires id in e.streams && e.buffer != []
    ensures HeldBy(sp, WithStream(e, id, e.streams[id] + [e.buffer[0]]).(buffer := e.buffer[1..])) == HeldBy(sp, e)
  {
    var q, d := e.streams[id], e.buffer[0];
    StreamsUpdate(sp, e.streams, id, q + [d]);
    TaggedAppend(sp, q, [d]);
    BufferSplit(sp, e.buffer);
    Moved(Tagged(sp, q), Tagged(sp, [d]), Tagged(sp, e.buffer[1..]), Bag(OnStreams(sp, e.streams - {id})));
  }

  lemma BufferSplit(sp: Spoke, q: seq<Directive>)
    requires q != []
    ensures Tagged(sp, q) == Tagged(sp, [q[0]]) + Tagged(sp, q[1..])
  {
    assert q == [q[0]] + q[1..];
    TaggedAppend(sp, [q[0]], q[1..]);
  }

  lemma Moved<T>(q: multiset<T>, d: multiset<T>, b: multiset<T>, rest: multiset<T>)
    ensures q + d + rest + b == q + rest + (d + b)
  {
  }

  /** Opening a stream, and closing one with nothing on it. */
  lemma WatchWaits(sp: Spoke, e: Entry, id: nat)
    requires id !in e.streams
    ensures HeldBy(sp, WithStream(e, id, [])) == HeldBy(sp, e)
  {
    StreamsUpdate(sp, e.streams, id, []);
  }

  lemma HangUpWaits(sp: Spoke, e: Entry, id: nat)
    requires id in e.streams && e.streams[id] == []
    ensures HeldBy(sp, e.(streams := e.streams - {id})) == HeldBy(sp, e)
  {
    StreamsUpdate(sp, e.streams, id, []);
  }

  lemma PartInFlight(w: World, sp: Spoke, f: Entry, part: multiset<(Spoke, Directive)>)
    requires w.hub.Up? && sp in w.hub.entries && HeldBy(sp, f) + part == HeldBy(sp, w.hub.entries[sp])
    ensures InFlight(Update(w, sp, f), w.left) + part == InFlight(w.hub, w.left)
  {
    QueuesUpdate(w.hub.entries, sp, f);
  }

  lemma DeliveryInFlight(w: World, a: SpokeAction, v: World)
    requires Stream(w, a) == Some(v) && (a.Receive? || a.Lose?)
    ensures InFlight(v.hub, v.left) <= InFlight(w.hub, w.left)
    ensures Consumes(w, BySpoke(a)) ==> |InFlight(v.hub, v.left)| < |InFlight(w.hub, w.left)|
  {
    var e, n := w.hub.entries[a.sp], if a.Receive? then 1 else a.n;
    var q := e.streams[a.id];
    DropFront(a.sp, e, a.id, n);
    PartInFlight(w, a.sp, WithStream(e, a.id, q[n..]), Tagged(a.sp, q[..n]));
    Smaller(InFlight(v.hub, v.left), Tagged(a.sp, q[..n]), InFlight(w.hub, w.left));
    if HoldsFirst(q, n) {
      TaggedSome(a.sp, q[..n]);
    }
  }

  lemma StreamInFlight(w: World, a: SpokeAction, v: World)
    requires Stream(w, a) == Some(v)
    ensures InFlight(v.hub, v.left) <= InFlight(w.hub, w.left)
    ensures Consumes(w, BySpoke(a)) ==> |InFlight(v.hub, v.left)| < |InFlight(w.hub, w.left)|
  {
    if a.Receive? || a.Lose? {
      DeliveryInFlight(w, a, v);
    } else {
      var e := w.hub.entries[a.sp];
      match a {
        case Pop(sp, id) => PopWaits(sp, e, id);
        case Watch(sp, id) => WatchWaits(sp, e, id);
        case HangUp(sp, id) => HangUpWaits(sp, e, id);
      }
      SameQueue(w, a.sp, v.hub.entries[a.sp]);
    }
  }

  lemma SendsBehind(left: Left, k: (Spoke, nat))
    requires k in left.stale && left.stale[k].queue != []
    ensures var l := left.stale[k];
            Behind(Left(left.stale[k := l.(queue := l.queue[1..])], left.flying + Tagged(k.0, l.queue[..1])))
              == Behind(left)
  {
    var l := left.stale[k];
    assert l.queue == l.queue[..1] + l.queue[1..];
    TaggedAppend(k.0, l.queue[..1], l.queue[1..]);
    StaleUpdate(left.stale, k, l.(queue := l.queue[1..]));
  }

  lemma LeavesBehind(left: Left, k: (Spoke, nat))
    requires k in left.stale
    ensures Behind(left.(stale := left.stale - {k})) + Tagged(k.0, left.stale[k].queue) == Behind(left)
  {
    StaleUpdate(left.stale, k, left.stale[k]);
  }

  lemma ArrivesBehind(left: Left, x: (Spoke, Directive))
    requires x in left.flying
    ensures Behind(left.(flying := left.flying - multiset{x})) + multiset{x} == Behind(left)
  {
  }

  /** Less behind is less in flight. */
  lemma LessBehind(hub: Hub, less: Left, part: multiset<(Spoke, Directive)>, left: Left)
    requires Behind(less) + part == Behind(left)
    ensures InFlight(hub, less) + part == InFlight(hub, left)
  {
  }

  lemma LateStreamInFlight(w: World, a: SpokeAction, v: World)
    requires LateStream(w, a) == Some(v)
    ensures InFlight(v.hub, v.left) <= InFlight(w.hub, w.left)
    ensures Consumes(w, BySpoke(a)) ==> |InFlight(v.hub, v.left)| < |InFlight(w.hub, w.left)|
  {
    var part := multiset{};
    match a {
      case StaleSends(sp, g) => SendsBehind(w.left, (sp, g));
      case WatcherLeaves(sp, g) =>
        var q := w.left.stale[(sp, g)].queue;
        part := Tagged(sp, q);
        LeavesBehind(w.left, (sp, g));
        if HoldsSome(q) {
          TaggedSome(sp, q);
        }
      case LateArrives(sp, d) =>
        part := multiset{(sp, d)};
        ArrivesBehind(w.left, (sp, d));
      case LateLost(sp, d) =>
        part := multiset{(sp, d)};
        ArrivesBehind(w.left, (sp, d));
    }
    LessBehind(w.hub, v.left, part, w.left);
    Smaller(InFlight(v.hub, v.left), part, InFlight(w.hub, w.left));
  }

  lemma ShardsInFlight(w: World, a: SpokeAction, v: World)
    requires Shards(w, a) == Some(v)
    ensures InFlight(v.hub, v.left) == InFlight(w.hub, w.left)
  {
    if a.SendReport? {
      SameQueue(w, a.sp, v.hub.entries[a.sp]);
    }
  }

  lemma RemoteInFlight(w: World, a: SpokeAction, v: World)
    requires Remote(w, a) == Some(v)
    ensures InFlight(v.hub, v.left) <= InFlight(w.hub, w.left)
    ensures Consumes(w, BySpoke(a)) ==> |InFlight(v.hub, v.left)| < |InFlight(w.hub, w.left)|
  {
    if Stream(w, a) == Some(v) {
      StreamInFlight(w, a, v);
    } else if Shards(w, a) == Some(v) {
      ShardsInFlight(w, a, v);
    } else {
      LateStreamInFlight(w, a, v);
    }
  }

  // ---------------------------------------------------------------------
  // After the deletion
  // ---------------------------------------------------------------------

  lemma GoneJob(w: World, j: JobAction, v: World)
    requires StopInv(w) && w.cr.Gone? && Reconcile(w, j) == Some(v)
    ensures v == w.(job := v.job)
  {
    assert w.job.Idle? || (w.job.Begun? && !w.job.lt.finalizer);
  }

  /** Shards only come from directives: without one in flight the shards can only become fewer. */
  ghost predicate NoBirths(before: map<(Spoke, nat), Shard>, after: map<(Spoke, nat), Shard>) {
    after.Keys <= before.Keys && forall k :: k in after ==> after[k].born == before[k].born
  }

  lemma RemoteBirths(w: World, a: SpokeAction, v: World)
    requires Remote(w, a) == Some(v)
    ensures NoBirths(w.shards, v.shards) || Consumes(w, BySpoke(a))
  {
    if a.Receive? {
      var q := w.hub.entries[a.sp].streams[a.id];
      assert q[0] in q[..1];
      assert !HoldsFirst(q, 1) ==> q[0].Other?;
    }
  }

  lemma GoneStays(w: World, a: Action, v: World)
    requires StopInv(w) && w.cr.Gone? && Do(w, a) == Some(v)
    ensures v.cr == w.cr
  {
    match a
    case ByUser(u) =>
    case ByJob(j) => GoneJob(w, j, v);
    case ByHub(h) => RegistryFrame(w, h, v);
    case BySpoke(s) => RemoteFrame(w, s, v);
    case ByList(l) =>
  }

  ghost predicate Shrinks(w: World, a: Action, v: World) {
    && InFlight(v.hub, v.left) <= InFlight(w.hub, w.left)
    && (Consumes(w, a) ==> |InFlight(v.hub, v.left)| < |InFlight(w.hub, w.left)|)
    && (NoBirths(w.shards, v.shards) || Consumes(w, a))
  }

  /** Once the load test is gone, nothing adds a directive; delivering or losing one takes it away, and
      only delivering one can add a shard. */
  lemma GoneShrinks(w: World, a: Action, v: World)
    requires StopInv(w) && w.cr.Gone? && Do(w, a) == Some(v)
    ensures Shrinks(w, a, v)
  {
    match a
    case ByUser(u) =>
    case ByJob(j) => GoneJob(w, j, v);
    case ByHub(h) => RegistryInFlight(w, h, v);
    case BySpoke(s) =>
      RemoteInFlight(w, s, v);
      RemoteBirths(w, s, v);
    case ByList(l) => assert v.hub == w.hub && v.left == w.left && NoBirths(w.shards, v.shards);
  }

  /** A collection on a list read after the deletion takes every old enough shard of its spoke. */
  lemma GoneCollect(w: World, sp: Spoke, l: Listing, v: World, k: (Spoke, nat))
    requires TimeInv(w) && w.cr.Gone? && Do(w, ByList(Collect(sp, l))) == Some(v)
    requires k in w.shards && k.0 == sp && l.at >= w.cr.at && l.at >= w.shards[k].born + MIN_AGE
    ensures k !in v.shards
  {
    assert l in w.readings && ReadingFits(l, w.cr);
    assert Orphaned(k, w.shards[k], sp, l, w.now);
  }

  // ---------------------------------------------------------------------
  // Fair runs
  // ---------------------------------------------------------------------

  /** An unending run of the system. */
  ghost predicate Behaviour(worlds: nat -> World, steps: nat -> Step) {
    worlds(0) == INIT && forall i: nat :: Next(worlds(i), steps(i)) == Some(worlds(i + 1))
  }

  ghost function Outstanding(w: World): multiset<(Spoke, Directive)> {
    InFlight(w.hub, w.left)
  }

  /** Queues and streams do not stand still for ever: while directives of the load test are in flight after
      its deletion, one is delivered or lost in the end, or some are gone with a crash of the hub or with a
      replaced queue. */
  ghost predicate StreamsFair(worlds: nat -> World, steps: nat -> Step) {
    forall n :: worlds(n).cr.Gone? && Outstanding(worlds(n)) != multiset{} ==> MovesLater(worlds, steps, n)
  }

  ghost predicate MovesLater(worlds: nat -> World, steps: nat -> Step, n: nat) {
    exists m :: n <= m && (Consumes(worlds(m), steps(m).action) || |Outstanding(worlds(m))| < |Outstanding(worlds(n))|)
  }

  /** After the deletion a spoke with shards keeps collecting, on ever newer lists. */
  ghost predicate CollectorFair(worlds: nat -> World, steps: nat -> Step) {
    forall n, k, t :: worlds(n).cr.Gone? && k in worlds(n).shards ==> CollectsLater(worlds, steps, n, k.0, t)
  }

  ghost predicate CollectsLater(worlds: nat -> World, steps: nat -> Step, n: nat, sp: Spoke, t: nat) {
    exists m, l :: n <= m && steps(m).action == ByList(Collect(sp, l)) && l.at >= t
  }

  lemma {:induction false} InvAt(worlds: nat -> World, steps: nat -> Step, n: nat)
    requires Behaviour(worlds, steps)
    ensures CleanInv(worlds(n))
  {
    if n == 0 {
    } else {
      InvAt(worlds, steps, n - 1);
      assert Next(worlds(n - 1), steps(n - 1)) == Some(worlds(n - 1 + 1));
      NextKeepsClean(worlds(n - 1), steps(n - 1));
    }
  }

  /** One step of a behaviour after the deletion. */
  lemma GoneAt(worlds: nat -> World, steps: nat -> Step, n: nat)
    requires Behaviour(worlds, steps) && worlds(n).cr.Gone?
    ensures worlds(n + 1).cr == worlds(n).cr && Shrinks(worlds(n), steps(n).action, worlds(n + 1))
  {
    InvAt(worlds, steps, n);
    assert Next(worlds(n), steps(n)) == Some(worlds(n + 1));
    var a, v := steps(n).action, Do(worlds(n), steps(n).action).value;
    GoneStays(worlds(n), a, v);
    GoneShrinks(worlds(n), a, v);
  }

  /** How a world at a later time relates to an earlier one. */
  ghost predicate Later(w: World, v: World) {
    && v.cr == w.cr && Outstanding(v) <= Outstanding(w)
    && (Outstanding(w) == multiset{} ==> NoBirths(w.shards, v.shards))
  }

  lemma LaterSame(w: World)
    ensures Later(w, w)
  {
  }

  lemma LaterStep(w: World, u: World, a: Action, v: World)
    requires Later(w, u) && v.cr == u.cr && Shrinks(u, a, v)
    ensures Later(w, v)
  {
    if Outstanding(w) == multiset{} {
      assert Outstanding(u) == multiset{} && Outstanding(v) == multiset{};
      assert !Consumes(u, a) && NoBirths(u.shards, v.shards);
    }
  }

  /** After the deletion every step shrinks. */
  ghost predicate Shrinking(worlds: nat -> World, steps: nat -> Step) {
    forall i: nat :: worlds(i).cr.Gone? ==>
      worlds(i + 1).cr == worlds(i).cr && Shrinks(worlds(i), steps(i).action, worlds(i + 1))
  }

  lemma {:induction false} ShrinksBetween(worlds: nat -> World, steps: nat -> Step, n: nat, m: nat)
    requires Shrinking(worlds, steps) && worlds(n).cr.Gone? && n <= m
    ensures Later(worlds(n), worlds(m))
  {
    if n == m {
      LaterSame(worlds(n));
    } else {
      ShrinksBetween(worlds, steps, n, m - 1);
      assert worlds(m - 1 + 1) == worlds(m);
      LaterStep(worlds(n), worlds(m - 1), steps(m - 1).action, worlds(m));
    }
  }

  lemma GoneBetween(worlds: nat -> World, steps: nat -> Step, n: nat, m: nat)
    requires Behaviour(worlds, steps) && worlds(n).cr.Gone? && n <= m
    ensures Later(worlds(n), worlds(m))
  {
    forall i: nat | worlds(i).cr.Gone?
      ensures worlds(i + 1).cr == worlds(i).cr && Shrinks(worlds(i), steps(i).action, worlds(i + 1))
    {
      GoneAt(worlds, steps, i);
    }
    assert Shrinking(worlds, steps);
    ShrinksBetween(worlds, steps, n, m);
  }

  /** In the end no directive is in flight. */
  lemma {:induction false} Quiesces(worlds: nat -> World, steps: nat -> Step, n: nat) returns (m: nat)
    requires Behaviour(worlds, steps) && StreamsFair(worlds, steps) && worlds(n).cr.Gone?
    ensures n <= m && worlds(m).cr == worlds(n).cr && Outstanding(worlds(m)) == multiset{}
    decreases |Outstanding(worlds(n))|
  {
    if Outstanding(worlds(n)) == multiset{} {
      m := n;
    } else {
      assert MovesLater(worlds, steps, n);
      var k :| n <= k && (Consumes(worlds(k), steps(k).action) || |Outstanding(worlds(k))| < |Outstanding(worlds(n))|);
      GoneBetween(worlds, steps, n, k);
      Larger(Outstanding(worlds(k)), Outstanding(worlds(n)));
      if |Outstanding(worlds(k))| < |Outstanding(worlds(n))| {
        m := Quiesces(worlds, steps, k);
      } else {
        GoneAt(worlds, steps, k);
        m := Quiesces(worlds, steps, k + 1);
      }
    }
  }

  lemma {:induction false} FewerKeys(before: map<(Spoke, nat), Shard>, after: map<(Spoke, nat), Shard>, k: (Spoke, nat))
    requires after.Keys <= before.Keys && k in before && k !in after
    ensures |after| < |before|
  {
    SubsetCount(after.Keys, before.Keys - {k});
  }

  /** And then the collector takes the shards one by one. */
  lemma {:induction false} Sweeps(worlds: nat -> World, steps: nat -> Step, n: nat) returns (m: nat)
    requires Behaviour(worlds, steps) && CollectorFair(worlds, steps)
    requires worlds(n).cr.Gone? && Outstanding(worlds(n)) == multiset{}
    ensures n <= m && worlds(m).cr == worlds(n).cr && Outstanding(worlds(m)) == multiset{} && worlds(m).shards == map[]
    decreases |worlds(n).shards|
  {
    if worlds(n).shards == map[] {
      m := n;
    } else {
      var k :| k in worlds(n).shards;
      var j := Swept(worlds, steps, n, k);
      FewerKeys(worlds(n).shards, worlds(j).shards, k);
      m := Sweeps(worlds, steps, j);
    }
  }

  lemma Swept(worlds: nat -> World, steps: nat -> Step, n: nat, k: (Spoke, nat)) returns (j: nat)
    requires Behaviour(worlds, steps) && CollectorFair(worlds, steps)
    requires worlds(n).cr.Gone? && Outstanding(worlds(n)) == multiset{}
    requires k in worlds(n).shards
    ensures n <= j && worlds(j).cr == worlds(n).cr && Outstanding(worlds(j)) == multiset{}
    ensures NoBirths(worlds(n).shards, worlds(j).shards) && k !in worlds(j).shards
  {
    var t := worlds(n).shards[k].born + MIN_AGE + worlds(n).cr.at;
    assert CollectsLater(worlds, steps, n, k.0, t);
    var i, l :| n <= i && steps(i).action == ByList(Collect(k.0, l)) && l.at >= t;
    GoneBetween(worlds, steps, n, i);
    j := i + 1;
    GoneBetween(worlds, steps, n, j);
    if k in worlds(i).shards {
      InvAt(worlds, steps, i);
      assert Next(worlds(i), steps(i)) == Some(worlds(i + 1));
      GoneCollect(worlds(i), k.0, l, Do(worlds(i), steps(i).action).value, k);
    } else {
      GoneAt(worlds, steps, i);
    }
  }

  ghost predicate CleanFrom(worlds: nat -> World, m: nat) {
    forall i :: i >= m ==> Outstanding(worlds(i)) == multiset{} && worlds(i).shards == map[]
  }

  /** Every fair run in which the load test is deleted ends without a directive or a shard of it, whatever
      was lost and however often the hub or a spoke started anew. */
  lemma CleanupAfterDeletion(worlds: nat -> World, steps: nat -> Step, n: nat)
    requires Behaviour(worlds, steps) && StreamsFair(worlds, steps) && CollectorFair(worlds, steps)
    requires worlds(n).cr.Gone?
    ensures exists m :: CleanFrom(worlds, m)
  {
    var q := Quiesces(worlds, steps, n);
    var m := Sweeps(worlds, steps, q);
    forall i | i >= m ensures Outstanding(worlds(i)) == multiset{} && worlds(i).shards == map[] {
      GoneBetween(worlds, steps, m, i);
      assert worlds(i).shards.Keys == {};
    }
    assert CleanFrom(worlds, m);
  }
}
