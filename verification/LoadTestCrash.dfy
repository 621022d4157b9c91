/**
 The case the orphan collector is for: the hub crashes after the load test is gone, with a STOP still in its
 memory. Such a run goes on fairly, so that cleanup is promised for it, and the collector brings it about.
 */
module LoadTestCrash {
  import opened Options
  import opened Collections
  import opened LoadTest
  import opened LoadTestPlan
  import opened LoadTestCleanup
  import opened LoadTestScenario
  import Runs

  // ---------------------------------------------------------------------
  // A run that goes on for ever
  // ---------------------------------------------------------------------

  /** The k-th step of a round that never ends: read the list, publish it, hear of it, collect on it. */
  function LoopStep(a: Spoke, start: nat, k: nat): Step {
    var x := match k % 4
      case 0 => ReadList
      case 1 => Publish(Listing(false, start + k - 1))
      case 2 => Hear(a)
      case _ => Collect(a, Listing(false, start + k - 3));
    Step(ByList(x), 0)
  }

  ghost function LoopWorld(w: World, a: Spoke, k: nat): World {
    if k == 0 then w
    else
      var u := LoopWorld(w, a, k - 1);
      match Next(u, LoopStep(a, w.now, k - 1))
      case None => u
      case Some(v) => v
  }

  /** What the round needs at its k-th step. */
  ghost predicate LoopFits(v: World, a: Spoke, k: nat) {
    && (k % 4 == 1 ==> v.now >= 1 && Listing(false, v.now - 1) in v.readings)
    && (k % 4 == 2 ==> v.now >= 2 && v.published == Some(Listing(false, v.now - 2)))
    && (k % 4 == 3 ==> v.now >= 3 && (a, Listing(false, v.now - 3)) in v.heard)
  }

  ghost predicate LoopKept(w: World, v: World) {
    v.cr == w.cr && v.hub == w.hub && v.left == w.left && v.shards.Keys <= w.shards.Keys
  }

  ghost predicate Served(w: World, a: Spoke) {
    w.cr.Gone? && w.hub.Up? && a in w.hub.entries
  }

  lemma LoopOnce(w: World, a: Spoke, k: nat, u: World)
    requires Served(u, a) && LoopFits(u, a, k) && u.now == w.now + k
    ensures Next(u, LoopStep(a, w.now, k)).Some?
    ensures var v := Next(u, LoopStep(a, w.now, k)).value;
            LoopFits(v, a, k + 1) && LoopKept(u, v) && v.now == u.now + 1
  {
    var x := LoopStep(a, w.now, k).action.list;
    assert Lists(u, x).Some?;
  }

  lemma {:induction false} LoopRuns(w: World, a: Spoke, k: nat)
    requires Served(w, a)
    ensures var v := LoopWorld(w, a, k);
            && LoopFits(v, a, k) && LoopKept(w, v) && v.now == w.now + k
            && Next(v, LoopStep(a, w.now, k)) == Some(LoopWorld(w, a, k + 1))
  {
    if k == 0 {
    } else {
      LoopRuns(w, a, k - 1);
      LoopOnce(w, a, k - 1, LoopWorld(w, a, k - 1));
    }
    LoopOnce(w, a, k, LoopWorld(w, a, k));
  }

  // ---------------------------------------------------------------------
  // After a finite run
  // ---------------------------------------------------------------------

  ghost function At(steps: seq<Step>, n: nat): World
    requires n <= |steps|
  {
    match Run(INIT, steps[..n])
    case None => INIT
    case Some(w) => w
  }

  lemma {:induction false} PrefixRuns(steps: seq<Step>, w: World, n: nat)
    requires Run(INIT, steps) == Some(w) && n <= |steps|
    ensures Run(INIT, steps[..n]) == Some(At(steps, n)) && Run(At(steps, n), steps[n..]) == Some(w)
    decreases |steps| - n
  {
    if n == |steps| {
      assert steps[..n] == steps && steps[n..] == [];
    } else {
      PrefixRuns(steps, w, n + 1);
      assert steps[..n + 1][..n] == steps[..n];
      assert Runs.Run(Stepper(), INIT, steps[..n]).Some?;
      Runs.Concatenated(Stepper(), INIT, steps[..n], At(steps, n), steps[n..]);
      assert steps[..n] + steps[n..] == steps;
    }
  }

  lemma PrefixStep(steps: seq<Step>, w: World, n: nat)
    requires Run(INIT, steps) == Some(w) && n < |steps|
    ensures Next(At(steps, n), steps[n]) == Some(At(steps, n + 1))
  {
    PrefixRuns(steps, w, n);
    PrefixRuns(steps, w, n + 1);
    assert steps[..n + 1][..n] == steps[..n] && steps[..n + 1][n] == steps[n];
    assert Stepper()(At(steps, n), steps[n]) == Next(At(steps, n), steps[n]);
  }

  ghost function WorldsOf(steps: seq<Step>, loop: nat -> World): nat -> World {
    (n: nat) => if n < |steps| then At(steps, n) else loop(n - |steps|)
  }

  ghost function StepsOf(steps: seq<Step>, beat: nat -> Step): nat -> Step {
    (n: nat) => if n < |steps| then steps[n] else beat(n - |steps|)
  }

  /** An unending run from the world in which nothing but the list is touched and shards are collected. */
  ghost predicate Loops(w: World, loop: nat -> World, beat: nat -> Step) {
    loop(0) == w && forall k: nat :: Next(loop(k), beat(k)) == Some(loop(k + 1)) && LoopKept(w, loop(k))
  }

  ghost predicate CollectsOften(a: Spoke, start: nat, beat: nat -> Step) {
    forall t: nat :: beat(4 * t + 3).action == ByList(Collect(a, Listing(false, start + 4 * t)))
  }

  lemma Ends(steps: seq<Step>, w: World)
    requires Run(INIT, steps) == Some(w)
    ensures At(steps, |steps|) == w && At(steps, 0) == INIT
  {
    assert steps[..|steps|] == steps;
    assert steps[..0] == [] && Runs.Run(Stepper(), INIT, []) == Some(INIT);
  }

  lemma StepAt(steps: seq<Step>, w: World, loop: nat -> World, beat: nat -> Step, n: nat)
    requires Run(INIT, steps) == Some(w) && Loops(w, loop, beat)
    ensures Next(WorldsOf(steps, loop)(n), StepsOf(steps, beat)(n)) == Some(WorldsOf(steps, loop)(n + 1))
  {
    if n < |steps| {
      PrefixStep(steps, w, n);
      Ends(steps, w);
    } else {
      var k := n - |steps|;
      assert Next(loop(k), beat(k)) == Some(loop(k + 1));
    }
  }

  lemma GoesOn(steps: seq<Step>, w: World, loop: nat -> World, beat: nat -> Step)
    requires Run(INIT, steps) == Some(w) && Loops(w, loop, beat)
    ensures Behaviour(WorldsOf(steps, loop), StepsOf(steps, beat))
  {
    Ends(steps, w);
    forall n: nat
      ensures Next(WorldsOf(steps, loop)(n), StepsOf(steps, beat)(n)) == Some(WorldsOf(steps, loop)(n + 1))
    {
      StepAt(steps, w, loop, beat, n);
    }
  }

  /** All shards ever are on the one spoke that a START ever went to. */
  lemma ShardsOn(steps: seq<Step>, w: World, a: Spoke, n: nat, k: (Spoke, nat))
    requires Run(INIT, steps) == Some(w) && n <= |steps| && forall l :: l in w.launched ==> l.spoke == a
    requires k in At(steps, n).shards
    ensures k.0 == a
  {
    PrefixRuns(steps, w, n);
    var x := At(steps, n);
    PlanHolds(steps[..n], x);
    PlanNeverReplaced(x, steps[n..], w);
    assert Launch(k.0, k.1, x.shards[k].count) in x.launched;
  }

  lemma CollectorGoesOn(steps: seq<Step>, w: World, a: Spoke, loop: nat -> World, beat: nat -> Step)
    requires Run(INIT, steps) == Some(w) && Loops(w, loop, beat) && CollectsOften(a, w.now, beat)
    requires forall l :: l in w.launched ==> l.spoke == a
    ensures CollectorFair(WorldsOf(steps, loop), StepsOf(steps, beat))
  {
    var worlds, ss, end := WorldsOf(steps, loop), StepsOf(steps, beat), |steps|;
    forall n: nat, k, t: nat | worlds(n).cr.Gone? && k in worlds(n).shards
      ensures CollectsLater(worlds, ss, n, k.0, t)
    {
      if n < end {
        ShardsOn(steps, w, a, n, k);
      } else {
        assert LoopKept(w, loop(n - end));
        Ends(steps, w);
        ShardsOn(steps, w, a, end, k);
      }
      CollectsAgain(steps, a, w.now, beat, n, t);
      var m :| n <= m && ss(m).action == ByList(Collect(a, Listing(false, w.now + 4 * (n + t))));
    }
  }

  lemma CollectsAgain(steps: seq<Step>, a: Spoke, start: nat, beat: nat -> Step, n: nat, t: nat)
    requires CollectsOften(a, start, beat)
    ensures exists m :: n <= m
              && StepsOf(steps, beat)(m).action == ByList(Collect(a, Listing(false, start + 4 * (n + t))))
  {
    var k := n + t;
    var m := |steps| + (4 * k + 3);
    assert StepsOf(steps, beat)(m) == beat(4 * k + 3);
  }

  lemma StreamsRest(steps: seq<Step>, w: World, loop: nat -> World, beat: nat -> Step)
    requires Run(INIT, steps) == Some(w) && Loops(w, loop, beat) && Outstanding(w) == multiset{}
    ensures StreamsFair(WorldsOf(steps, loop), StepsOf(steps, beat))
  {
    var worlds, ss, end := WorldsOf(steps, loop), StepsOf(steps, beat), |steps|;
    assert worlds(end) == w;
    forall k: nat ensures Outstanding(loop(k)) == multiset{} {
      assert LoopKept(w, loop(k));
    }
    forall n: nat | worlds(n).cr.Gone? && Outstanding(worlds(n)) != multiset{} ensures MovesLater(worlds, ss, n) {
      assert n < end && |Outstanding(worlds(end))| < |Outstanding(worlds(n))|;
    }
  }

  /** A run that has come to rest, with the load test gone, no directive in flight, a server, and its one spoke
      registered, can go on fairly for ever. */
  lemma FairFromThere(steps: seq<Step>, w: World, a: Spoke) returns (loop: nat -> World, beat: nat -> Step)
    requires Run(INIT, steps) == Some(w) && Served(w, a) && Outstanding(w) == multiset{}
    requires forall l :: l in w.launched ==> l.spoke == a
    ensures Behaviour(WorldsOf(steps, loop), StepsOf(steps, beat))
    ensures StreamsFair(WorldsOf(steps, loop), StepsOf(steps, beat))
    ensures CollectorFair(WorldsOf(steps, loop), StepsOf(steps, beat)) && Loops(w, loop, beat)
  {
    loop, beat := (k: nat) => LoopWorld(w, a, k), (k: nat) => LoopStep(a, w.now, k);
    forall k: nat ensures Next(loop(k), beat(k)) == Some(loop(k + 1)) && LoopKept(w, loop(k)) {
      LoopRuns(w, a, k);
    }
    forall t: nat ensures beat(4 * t + 3).action == ByList(Collect(a, Listing(false, w.now + 4 * t))) {
      assert (4 * t + 3) % 4 == 3;
    }
    GoesOn(steps, w, loop, beat);
    StreamsRest(steps, w, loop, beat);
    CollectorGoesOn(steps, w, a, loop, beat);
  }

  // ---------------------------------------------------------------------
  // A crash after the deletion
  // ---------------------------------------------------------------------

  const OPEN: Streams := map[0 := []]

  ghost predicate OneShard(w: World, a: Spoke) {
    w.shards.Keys == {(a, 0)} && w.plan == Single(a) && w.left == NOTHING
  }

  /** One shard is there, and nothing is queued. */
  lemma Replaying(a: Spoke) returns (steps: seq<Step>, w: World)
    ensures Run(INIT, steps) == Some(w) && w.hub == Up(0, map[a := Entry(1, 2, OPEN, [], map[])])
    ensures Distributes(w, a, 1, NotLooked) && OneShard(w, a)
  {
    var e := Entry(1, 2, OPEN, [], map[]);
    steps, w := Connect(a);
    steps, w := QueueStart(steps, w, a, e);
    var f, g := e.(buffer := [START]), e.(streams := map[0 := [START]]);
    assert [] + [START] == [START] && [START][1..] == [];
    assert OPEN[0 := [START]] == g.streams && g.streams[0 := []] == OPEN;
    steps, w := StreamStep(steps, w, a, f, Pop(a, 0), g);
    var before := w.shards;
    steps, w := StreamStep(steps, w, a, g, Receive(a, 0), e);
    assert before == map[] && w.shards.Keys == {(a, 0)};
    PlanHolds(steps, w);
  }

  ghost predicate Deletes(w: World, a: Spoke, next: nat, t: Target, answers: Acks) {
    && w.cr.Present? && w.cr.r.status.plan == Single(a)
    && w.job == Stopping(w.cr.r, Handle(0), Deletion, next, t, true, answers)
  }

  /** The load test is deleted by its user, and the spoke is looked up. */
  lemma Deleted(a: Spoke) returns (steps: seq<Step>, w: World)
    ensures Run(INIT, steps) == Some(w) && w.hub == Up(0, map[a := Entry(1, 2, OPEN, [], map[])])
    ensures Deletes(w, a, 0, Found(1), map[]) && OneShard(w, a)
  {
    steps, w := Replaying(a);
    steps, w := Then(steps, w, ByJob(Drop));
    steps, w := Then(steps, w, ByUser(Delete));
    steps, w := Then(steps, w, ByJob(JobAction.Begin));
    steps, w := Then(steps, w, ByJob(Enter));
    steps, w := Then(steps, w, ByJob(FindSpoke));
  }

  lemma DeleteStep(w: World, a: Spoke, e: Entry)
    requires w.hub == Up(0, map[a := e]) && Deletes(w, a, 0, Found(e.gen), map[]) && e.buffer == [] && e.capacity > 0
    ensures Do(w, ByJob(SendStop(Queued)))
         == Some(w.(hub := Up(0, map[a := e.(buffer := [Stop])]),
                    job := Stopping(w.cr.r, Handle(0), Deletion, 1, NotLooked, true, Answer(w, a, e))))
  {
    var sent := Send(w, a, Found(e.gen), Stop, Queued).value;
    assert [] + [Stop] == [Stop];
    assert sent.hub.entries == map[a := e.(buffer := [Stop])];
    assert AckOf(w, a, Queued) == Answer(w, a, e)[a];
  }

  const STOPPED: Entry := Entry(1, 2, OPEN, [Stop], map[])

  /** The STOP is queued. */
  lemma StopQueued(a: Spoke) returns (steps: seq<Step>, w: World, answers: Acks)
    ensures Run(INIT, steps) == Some(w) && w.hub == Up(0, map[a := STOPPED])
    ensures Deletes(w, a, 1, NotLooked, answers) && OneShard(w, a)
  {
    steps, w := Deleted(a);
    var e := Entry(1, 2, OPEN, [], map[]);
    answers := Answer(w, a, e);
    DeleteStep(w, a, e);
    steps, w := Then(steps, w, ByJob(SendStop(Queued)));
  }

  /** The finalizer is released: the load test is gone. */
  lemma Released(a: Spoke) returns (steps: seq<Step>, w: World)
    ensures Run(INIT, steps) == Some(w) && w.hub == Up(0, map[a := STOPPED]) && w.cr.Gone? && OneShard(w, a)
  {
    var answers;
    steps, w, answers := StopQueued(a);
    assert Cleared(w.hub).entries == w.hub.entries;
    steps, w := Then(steps, w, ByJob(Stopped));
    steps, w := Then(steps, w, ByJob(Release));
  }

  lemma StopOutstanding(w: World, a: Spoke)
    requires w.hub == Up(0, map[a := STOPPED]) && w.left == NOTHING
    ensures Outstanding(w) == multiset{(a, Stop)}
  {
    var q := [Stop];
    assert Tagged(a, q) == multiset{(a, Stop)} by { assert q[1..] == []; }
    var bags := OnStreams(a, OPEN);
    assert bags == map[0 := multiset{}];
    BagAny(bags, 0);
    assert bags - {0} == map[] && HeldBy(a, STOPPED) == multiset{(a, Stop)};
    var queues := Queues(w.hub.entries);
    assert queues == map[a := multiset{(a, Stop)}];
    BagAny(queues, a);
    assert queues - {a} == map[] && Stale(NOTHING.stale) == map[];
  }

  lemma RetireOne(left: Left, a: Spoke, e: Entry)
    ensures RetireAll(left, map[a := e]) == Retire(left, a, e)
  {
    var entries := map[a := e];
    assert a in entries;
    var sp :| sp in entries && RetireAll(left, entries) == RetireAll(Retire(left, sp, entries[sp]), entries - {sp});
    assert sp == a && entries - {a} == map[];
  }

  /** The crash takes the STOP with it. */
  lemma CrashForgets(w: World, a: Spoke, v: World)
    requires w.hub == Up(0, map[a := STOPPED]) && w.left == NOTHING && Do(w, ByHub(Crash)) == Some(v)
    ensures Outstanding(v) == multiset{} && v.shards == w.shards && v.hub.Down?
  {
    RetireIdle(a, STOPPED);
    RetireOne(NOTHING, a, STOPPED);
    assert Stale(map[]) == map[];
  }

  /** The hub comes back, and the spoke registers anew. */
  lemma Restarted(steps: seq<Step>, w: World, a: Spoke) returns (more: seq<Step>, v: World)
    requires Run(INIT, steps) == Some(w) && w.hub.Down? && w.cr.Gone? && Outstanding(w) == multiset{}
    ensures Run(INIT, more) == Some(v) && Served(v, a) && Outstanding(v) == multiset{} && v.plan == w.plan
    ensures steps < more
  {
    RegistryInFlight(w, StartServer, Do(w, ByHub(StartServer)).value);
    more, v := Then(steps, w, ByHub(StartServer));
    assert Outstanding(v) == multiset{};
    RegistryInFlight(v, Register(a, 2), Do(v, ByHub(Register(a, 2))).value);
    more, v := Then(more, v, ByHub(Register(a, 2)));
  }

  /** The step of the behaviour at which the hub crashes. */
  ghost predicate CrashesAt(worlds: nat -> World, steps: nat -> Step, a: Spoke, n: nat) {
    && worlds(n).cr.Gone? && Outstanding(worlds(n)) == multiset{(a, Stop)} && (a, 0) in worlds(n).shards
    && steps(n).action == ByHub(Crash) && !Consumes(worlds(n), steps(n).action)
    && Outstanding(worlds(n + 1)) == multiset{} && (a, 0) in worlds(n + 1).shards
  }

  /** The run up to the crash. */
  lemma CrashRun(a: Spoke) returns (before: seq<Step>, w: World, u: World)
    ensures Run(INIT, before) == Some(w) && w.cr.Gone? && Outstanding(w) == multiset{(a, Stop)} && (a, 0) in w.shards
    ensures Run(INIT, before + [Step(ByHub(Crash), 0)]) == Some(u) && u.hub.Down? && u.cr.Gone?
    ensures Outstanding(u) == multiset{} && (a, 0) in u.shards && u.plan == Single(a)
  {
    before, w := Released(a);
    StopOutstanding(w, a);
    CrashForgets(w, a, Do(w, ByHub(Crash)).value);
    var crashed;
    crashed, u := Then(before, w, ByHub(Crash));
  }

  lemma OneSpoke(steps: seq<Step>, w: World, a: Spoke)
    requires Run(INIT, steps) == Some(w) && w.plan == Single(a)
    ensures forall l :: l in w.launched ==> l.spoke == a
  {
    PlanHolds(steps, w);
  }

  /** A fair behaviour in which the hub crashes after the deletion: the STOP that was queued is never
      delivered, the shard survives the crash, and the collector takes it in the end. */
  lemma CleanupAfterCrash(a: Spoke) returns (worlds: nat -> World, steps: nat -> Step, n: nat)
    ensures Behaviour(worlds, steps) && StreamsFair(worlds, steps) && CollectorFair(worlds, steps)
    ensures CrashesAt(worlds, steps, a, n) && exists m :: CleanFrom(worlds, m)
  {
    var before, w, u := CrashRun(a);
    n := |before|;
    var crashed := before + [Step(ByHub(Crash), 0)];
    var all, v := Restarted(crashed, u, a);
    OneSpoke(all, v, a);
    var loop, beat := FairFromThere(all, v, a);
    worlds, steps := WorldsOf(all, loop), StepsOf(all, beat);
    Before(before, w, crashed, u, all);
    CleanupAfterDeletion(worlds, steps, n);
  }

  lemma Before(before: seq<Step>, w: World, crashed: seq<Step>, u: World, all: seq<Step>)
    requires Run(INIT, before) == Some(w) && Run(INIT, crashed) == Some(u) && crashed < all
    requires crashed == before + [Step(ByHub(Crash), 0)]
    ensures At(all, |before|) == w && At(all, |before| + 1) == u && all[|before|] == Step(ByHub(Crash), 0)
  {
    assert all[..|before|] == before && all[..|before| + 1] == crashed;
    assert all[|before|] == crashed[|before|];
  }
}
