/**
 Runs that show why the conditions of stop safety are there. In both a load test is aborted, the STOP is
 accepted by a registration that is kept, nothing is lost, the queue is worked off, and a shard is there: once
 because the watcher of a replaced queue delivers its START late, and once because two streams share a queue
 and the one with the START is the slower one.
 */
module LoadTestScenario {
  import opened Options
  import opened Collections
  import opened LoadTest
  import opened LoadTestPlan
  import opened LoadTestQueue
  import opened LoadTestStop
  import Runs

  /** One spoke with one shard. */
  function Single(a: Spoke): Plan {
    Plan([a], [a])
  }

  const START: Directive := Start(0, 1)

  const NOTHING: Left := Left(map[], multiset{})

  ghost predicate Stands(w: World, a: Spoke, e: Entry, left: Left) {
    w.hub == Up(0, map[a := e]) && w.left == left && w.lost == {}
  }

  lemma Extend(steps: seq<Step>, w: World, a: Action, v: World)
    requires Run(INIT, steps) == Some(w) && Do(w, a) == Some(v)
    ensures Run(INIT, steps + [Step(a, 0)]) == Some(v.(now := w.now + 1))
  {
    var s := Step(a, 0);
    assert (steps + [s])[..|steps|] == steps;
    assert Stepper()(w, s) == Next(w, s);
  }

  lemma Then(steps: seq<Step>, w: World, a: Action) returns (more: seq<Step>, v: World)
    requires Run(INIT, steps) == Some(w) && Do(w, a).Some?
    ensures Run(INIT, more) == Some(v) && v == Do(w, a).value.(now := w.now + 1) && more == steps + [Step(a, 0)]
  {
    Extend(steps, w, a, Do(w, a).value);
    more, v := steps + [Step(a, 0)], Do(w, a).value.(now := w.now + 1);
  }

  // ---------------------------------------------------------------------
  // Common beginnings
  // ---------------------------------------------------------------------

  ghost predicate Untouched(w: World) {
    w.job.Idle? && w.cr.Absent? && w.shards == map[]
  }

  /** A server and a spoke with an open stream. */
  lemma Connect(a: Spoke) returns (steps: seq<Step>, w: World)
    ensures Run(INIT, steps) == Some(w) && Stands(w, a, Entry(1, 2, map[0 := []], [], map[]), NOTHING)
    ensures Untouched(w) && w.serial == 2 && w.shared == {}
  {
    steps, w := [], INIT;
    assert Runs.Run(Stepper(), INIT, []) == Some(INIT);
    steps, w := Then(steps, w, ByHub(StartServer));
    steps, w := Then(steps, w, ByHub(Register(a, 2)));
    steps, w := Then(steps, w, BySpoke(Watch(a, 0)));
    assert w.hub.entries == map[a := Entry(1, 2, map[0 := []], [], map[])];
  }

  /** What a reconcile leaves alone. */
  ghost predicate Beside(w: World, v: World) {
    v.left == w.left && v.lost == w.lost && v.shared == w.shared && v.shards == w.shards && v.serial == w.serial
  }

  /** A load test whose finalizer is set. */
  lemma Begin(steps: seq<Step>, w: World) returns (more: seq<Step>, v: World)
    requires Run(INIT, steps) == Some(w) && Untouched(w) && w.hub.Up? && w.hub.epoch == 0
    ensures Run(INIT, more) == Some(v) && Beside(w, v) && v.hub == w.hub
    ensures v.job.Ready? && v.job.srv == Handle(0) && v.cr.Present? && v.job.lt == v.cr.r
    ensures v.cr.r.status == Status(Unset, NO_PLAN, 0, 0) && !v.cr.r.deleting && v.cr.r.finalizer
  {
    more, v := Then(steps, w, ByUser(Create));
    more, v := Then(more, v, ByJob(JobAction.Begin));
    more, v := Then(more, v, ByJob(Enter));
  }

  ghost predicate Distributes(w: World, a: Spoke, next: nat, t: Target) {
    && w.cr.Present? && w.cr.r.status == Status(Distributing, Single(a), 0, 0)
    && !w.cr.r.deleting && w.cr.r.finalizer
    && w.job == Starting(w.cr.r, Handle(0), map[], next, t)
  }

  lemma SnapshotStep(w: World, st: Statuses)
    requires w.job.Planned? && Current(w.hub, w.job.srv) && View(w.hub) == st
    ensures Reconcile(w, Snapshot(st)) == Some(w.(job := Starting(w.job.lt, w.job.srv, st, 0, NotLooked)))
  {
  }

  /** The plan is persisted and the (empty) statuses are read. */
  lemma Assign(steps: seq<Step>, w: World, a: Spoke, e: Entry) returns (more: seq<Step>, v: World)
    requires Run(INIT, steps) == Some(w) && Untouched(w) && w.hub == Up(0, map[a := e]) && e.replays == map[]
    ensures Run(INIT, more) == Some(v) && Beside(w, v) && v.hub == w.hub && Distributes(v, a, 0, NotLooked)
  {
    more, v := Begin(steps, w);
    more, v := Then(more, v, ByJob(MakePlan(Single(a))));
    assert View(v.hub) == map[];
    SnapshotStep(v, map[]);
    more, v := Then(more, v, ByJob(Snapshot(map[])));
  }

  lemma FindStep(w: World, a: Spoke, e: Entry)
    requires Distributes(w, a, 0, NotLooked) && w.hub == Up(0, map[a := e])
    ensures Do(w, ByJob(FindOwner)) == Some(w.(job := Starting(w.cr.r, Handle(0), map[], 0, Found(e.gen))))
  {
    assert !Reported(w.job.statuses, 0);
  }

  lemma StartStep(w: World, a: Spoke, e: Entry)
    requires Distributes(w, a, 0, Found(e.gen)) && w.hub == Up(0, map[a := e]) && e.buffer == [] && e.capacity > 0
    ensures Do(w, ByJob(SendStart(Queued))).Some?
    ensures var v := Do(w, ByJob(SendStart(Queued))).value;
            v == w.(hub := Up(0, map[a := e.(buffer := [START])]),
                    job := Starting(w.cr.r, Handle(0), map[], 1, NotLooked), launched := v.launched)
    ensures Do(w, ByJob(SendStart(Queued))).value.launched == w.launched + {Launch(a, 0, 1)}
  {
    assert !Reported(w.job.statuses, 0);
    var sent := Send(w, a, Found(e.gen), START, Queued).value;
    assert [] + [START] == [START];
    assert sent.hub.entries == map[a := e.(buffer := [START])];
  }

  /** The START is queued. */
  lemma QueueStart(steps: seq<Step>, w: World, a: Spoke, e: Entry) returns (more: seq<Step>, v: World)
    requires Run(INIT, steps) == Some(w) && Untouched(w) && w.hub == Up(0, map[a := e])
    requires e.buffer == [] && e.capacity > 0 && e.replays == map[]
    ensures Run(INIT, more) == Some(v) && Beside(w, v) && v.hub == Up(0, map[a := e.(buffer := [START])])
    ensures Distributes(v, a, 1, NotLooked)
  {
    more, v := Assign(steps, w, a, e);
    FindStep(v, a, e);
    more, v := Then(more, v, ByJob(FindOwner));
    StartStep(v, a, e);
    more, v := Then(more, v, ByJob(SendStart(Queued)));
  }

  // ---------------------------------------------------------------------
  // The abort
  // ---------------------------------------------------------------------

  ghost predicate Stops(w: World, a: Spoke, next: nat, t: Target, answers: Acks) {
    && w.cr.Present? && w.cr.r.status == Status(Distributing, Single(a), 0, 0)
    && w.job == Stopping(w.cr.r, Handle(0), Policy, next, t, true, answers)
  }

  /** The abort policy strikes, and the spoke is looked up. */
  lemma Decide(steps: seq<Step>, w: World, a: Spoke, e: Entry) returns (more: seq<Step>, v: World)
    requires Run(INIT, steps) == Some(w) && w.hub == Up(0, map[a := e]) && Distributes(w, a, 1, NotLooked)
    ensures Run(INIT, more) == Some(v) && Beside(w, v) && v.hub == w.hub && Stops(v, a, 0, Found(e.gen), map[])
  {
    assert forall ph :: InPhase(map[], ph) == {};
    more, v := Then(steps, w, ByJob(Aggregate));
    more, v := Then(more, v, ByJob(Abort));
    more, v := Then(more, v, ByJob(FindSpoke));
  }

  /** How the STOP is taken. */
  ghost function Answer(w: World, a: Spoke, e: Entry): Acks {
    map[a := Taken(e.gen, Quiet(w.left, a), Clear(e))]
  }

  lemma StopStep(w: World, a: Spoke, e: Entry)
    requires w.hub == Up(0, map[a := e]) && Stops(w, a, 0, Found(e.gen), map[]) && e.buffer == [] && e.capacity > 0
    ensures Do(w, ByJob(SendStop(Queued)))
         == Some(w.(hub := Up(0, map[a := e.(buffer := [Stop])]),
                    job := Stopping(w.cr.r, Handle(0), Policy, 1, NotLooked, true, Answer(w, a, e))))
  {
    var sent := Send(w, a, Found(e.gen), Stop, Queued).value;
    assert [] + [Stop] == [Stop];
    assert sent.hub.entries == map[a := e.(buffer := [Stop])];
    assert AckOf(w, a, Queued) == Answer(w, a, e)[a];
  }

  ghost predicate IsAborted(w: World, acks: Acks) {
    w.cr.Present? && w.cr.r.status.phase.Aborted? && w.aborted == Some(acks)
  }

  lemma Accept(steps: seq<Step>, w: World, a: Spoke, e: Entry) returns (more: seq<Step>, v: World)
    requires Run(INIT, steps) == Some(w) && w.hub == Up(0, map[a := e]) && Distributes(w, a, 1, NotLooked)
    requires e.buffer == [] && e.capacity > 0
    ensures Run(INIT, more) == Some(v) && Beside(w, v) && v.hub == Up(0, map[a := e.(buffer := [Stop])])
    ensures Stops(v, a, 1, NotLooked, Answer(w, a, e))
  {
    more, v := Decide(steps, w, a, e);
    StopStep(v, a, e);
    more, v := Then(more, v, ByJob(SendStop(Queued)));
  }

  /** The STOP is accepted, and Aborted is persisted. */
  lemma AbortIt(steps: seq<Step>, w: World, a: Spoke, e: Entry) returns (more: seq<Step>, v: World)
    requires Run(INIT, steps) == Some(w) && w.hub == Up(0, map[a := e]) && Distributes(w, a, 1, NotLooked)
    requires e.buffer == [] && e.capacity > 0
    ensures Run(INIT, more) == Some(v) && Beside(w, v) && v.hub == Up(0, map[a := e.(buffer := [Stop])])
    ensures IsAborted(v, Answer(w, a, e))
  {
    more, v := Accept(steps, w, a, e);
    more, v := Then(more, v, ByJob(Stopped));
    more, v := Then(more, v, ByJob(Persist));
  }

  // ---------------------------------------------------------------------
  // Streams
  // ---------------------------------------------------------------------

  /** One step of a stream, after which the registration is `f`. */
  lemma StreamStep(steps: seq<Step>, w: World, a: Spoke, e: Entry, x: SpokeAction, f: Entry)
    returns (more: seq<Step>, v: World)
    requires Run(INIT, steps) == Some(w) && w.hub == Up(0, map[a := e]) && x.sp == a && !x.Lose?
    requires Stream(w, x).Some? && Stream(w, x).value.hub.entries[a] == f
    ensures Run(INIT, more) == Some(v) && v.hub == Up(0, map[a := f])
    ensures v.left == w.left && v.lost == w.lost && v.cr == w.cr && v.aborted == w.aborted && v.job == w.job
    ensures v.shards == Stream(w, x).value.shards && v.shared == Stream(w, x).value.shared && v.serial == w.serial
  {
    assert Stream(w, x).value.hub.entries == map[a := f];
    more, v := Then(steps, w, BySpoke(x));
  }

  // ---------------------------------------------------------------------
  // A START in a replaced queue
  // ---------------------------------------------------------------------

  lemma RetireIdle(a: Spoke, e: Entry)
    requires e.streams == map[0 := []]
    ensures Retire(NOTHING, a, e) == Left(map[(a, e.gen) := Leftover(e.capacity, e.buffer)], multiset{})
  {
    var bags := OnStreams(a, e.streams);
    assert bags == map[0 := multiset{}];
    BagAny(bags, 0);
    assert bags - {0} == map[] && Bag(bags) == multiset{};
    var rest := Leftover(e.capacity, e.buffer);
    assert NOTHING.stale[(a, e.gen) := rest] == map[(a, e.gen) := rest];
  }

  function Behind(a: Spoke): Left {
    Left(map[(a, 1) := Leftover(2, [START])], multiset{})
  }

  /** With the START queued, the registration is replaced. */
  lemma Replace(a: Spoke) returns (steps: seq<Step>, w: World)
    ensures Run(INIT, steps) == Some(w) && Stands(w, a, Fresh(2, 2), Behind(a)) && Distributes(w, a, 1, NotLooked)
    ensures w.shared == {}
  {
    var e := Entry(1, 2, map[0 := []], [], map[]);
    steps, w := Connect(a);
    steps, w := QueueStart(steps, w, a, e);
    RetireIdle(a, e.(buffer := [START]));
    assert Retired(w, a) == Behind(a);
    steps, w := Then(steps, w, ByHub(Register(a, 2)));
    assert w.hub.entries == map[a := Fresh(2, 2)];
  }

  /** The load test is aborted. */
  lemma AbortAnyway(a: Spoke) returns (steps: seq<Step>, w: World)
    ensures Run(INIT, steps) == Some(w) && Stands(w, a, Entry(2, 2, map[], [Stop], map[]), Behind(a))
    ensures IsAborted(w, map[a := Taken(2, false, true)]) && w.shared == {}
  {
    steps, w := Replace(a);
    assert START in w.left.stale[(a, 1)].queue && !Quiet(w.left, a);
    assert Answer(w, a, Fresh(2, 2)) == map[a := Taken(2, false, true)];
    steps, w := AbortIt(steps, w, a, Fresh(2, 2));
  }

  /** The spoke works off its queue. */
  lemma Obey(a: Spoke) returns (steps: seq<Step>, w: World)
    ensures Run(INIT, steps) == Some(w) && Stands(w, a, Entry(2, 2, map[0 := []], [], map[]), Behind(a))
    ensures IsAborted(w, map[a := Taken(2, false, true)]) && w.shared == {}
  {
    steps, w := AbortAnyway(a);
    var e := Entry(2, 2, map[], [Stop], map[]);
    var f, g := Entry(2, 2, map[0 := []], [Stop], map[]), Entry(2, 2, map[0 := [Stop]], [], map[]);
    steps, w := StreamStep(steps, w, a, e, Watch(a, 0), f);
    assert [] + [Stop] == [Stop] && [Stop][1..] == [] && f.streams[0 := [Stop]] == g.streams;
    steps, w := StreamStep(steps, w, a, f, Pop(a, 0), g);
    assert g.streams[0 := []] == map[0 := []];
    steps, w := StreamStep(steps, w, a, g, Receive(a, 0), Entry(2, 2, map[0 := []], [], map[]));
  }

  lemma Disobey(a: Spoke) returns (steps: seq<Step>, w: World)
    ensures Run(INIT, steps) == Some(w) && w.hub == Up(0, map[a := Entry(2, 2, map[0 := []], [], map[])])
    ensures IsAborted(w, map[a := Taken(2, false, true)]) && w.lost == {} && w.shared == {}
    ensures (a, START) in w.left.flying
  {
    steps, w := Obey(a);
    var q := [START];
    assert Tagged(a, q[..1]) == multiset{(a, START)} by { assert q[..1] == q && q[1..] == []; }
    steps, w := Then(steps, w, BySpoke(StaleSends(a, 1)));
  }

  /** A reachable state in which the load test is aborted, its only spoke has kept the registration that
      took the STOP, has had one stream at a time and lost nothing, its queue is worked off, and a shard is
      there. */
  lemma AbortedYetReplaying(a: Spoke) returns (steps: seq<Step>, w: World)
    ensures Run(INIT, steps) == Some(w) && w.hub.Up? && a in w.hub.entries
    ensures IsAborted(w, map[a := Taken(w.hub.entries[a].gen, false, true)])
    ensures w.lost == {} && w.shared == {} && WorkedOff(w.hub.entries[a]) && (a, 0) in w.shards
  {
    steps, w := Disobey(a);
    steps, w := Then(steps, w, BySpoke(LateArrives(a, START)));
  }

  // ---------------------------------------------------------------------
  // A START on the slower of two streams
  // ---------------------------------------------------------------------

  const BOTH: Streams := map[0 := [], 1 := []]

  /** A second process registers the spoke anew while nothing is queued, and the stream of the first one, which
      ends with its registration, is opened again on the new registration beside that of the second. */
  lemma Share(a: Spoke) returns (steps: seq<Step>, w: World)
    ensures Run(INIT, steps) == Some(w) && Untouched(w) && w.shared == {2}
    ensures Stands(w, a, Entry(2, 2, BOTH, [], map[]), Left(map[(a, 1) := Leftover(2, [])], multiset{}))
  {
    var e := Entry(1, 2, map[0 := []], [], map[]);
    steps, w := Connect(a);
    RetireIdle(a, e);
    assert Retired(w, a) == Left(map[(a, 1) := Leftover(2, [])], multiset{});
    steps, w := Then(steps, w, ByHub(Register(a, 2)));
    assert w.hub.entries == map[a := Fresh(2, 2)];
    var f := Entry(2, 2, map[0 := []], [], map[]);
    steps, w := StreamStep(steps, w, a, Fresh(2, 2), Watch(a, 0), f);
    assert f.streams[1 := []] == BOTH;
    steps, w := StreamStep(steps, w, a, f, Watch(a, 1), Entry(2, 2, BOTH, [], map[]));
  }

  /** The START is taken by the first stream. */
  lemma TakeStart(a: Spoke) returns (steps: seq<Step>, w: World)
    ensures Run(INIT, steps) == Some(w) && w.hub == Up(0, map[a := Entry(2, 2, BOTH[0 := [START]], [], map[])])
    ensures Distributes(w, a, 1, NotLooked) && w.lost == {} && Quiet(w.left, a)
  {
    var e := Entry(2, 2, BOTH, [], map[]);
    steps, w := Share(a);
    steps, w := QueueStart(steps, w, a, e);
    assert [] + [START] == [START] && [START][1..] == [];
    steps, w := StreamStep(steps, w, a, e.(buffer := [START]), Pop(a, 0), e.(streams := BOTH[0 := [START]]));
  }

  /** The STOP is accepted by the same registration and taken by the second stream. */
  lemma TakeStop(a: Spoke) returns (steps: seq<Step>, w: World)
    ensures Run(INIT, steps) == Some(w)
    ensures w.hub == Up(0, map[a := Entry(2, 2, map[0 := [START], 1 := [Stop]], [], map[])])
    ensures IsAborted(w, map[a := Taken(2, true, false)]) && w.lost == {}
  {
    steps, w := TakeStart(a);
    var e := Entry(2, 2, BOTH[0 := [START]], [], map[]);
    assert After([START], {}) == {0} by { assert [START][1..] == []; }
    assert !Tidy(e.streams[0]) && !Clear(e);
    assert Answer(w, a, e) == map[a := Taken(2, true, false)];
    steps, w := AbortIt(steps, w, a, e);
    var f := e.(streams := map[0 := [START], 1 := [Stop]]);
    assert [] + [Stop] == [Stop] && [Stop][1..] == [] && e.streams[1 := [Stop]] == f.streams;
    steps, w := StreamStep(steps, w, a, e.(buffer := [Stop]), Pop(a, 1), f);
  }

  /** A reachable state in which the load test is aborted, its only spoke has kept the registration that took
      the STOP and lost nothing, no START was left from a replaced registration, the queue is worked off, and a
      shard is there. */
  lemma AbortedYetSharing(a: Spoke) returns (steps: seq<Step>, w: World)
    ensures Run(INIT, steps) == Some(w) && w.hub.Up? && a in w.hub.entries
    ensures IsAborted(w, map[a := Taken(w.hub.entries[a].gen, true, false)])
    ensures w.lost == {} && WorkedOff(w.hub.entries[a]) && (a, 0) in w.shards
  {
    steps, w := TakeStop(a);
    var e := Entry(2, 2, map[0 := [START], 1 := [Stop]], [], map[]);
    var f, g := e.(streams := map[0 := [START], 1 := []]), e.(streams := BOTH);
    assert [Stop][1..] == [] && [START][1..] == [] && e.streams[1 := []] == f.streams && f.streams[0 := []] == BOTH;
    steps, w := StreamStep(steps, w, a, e, Receive(a, 1), f);
    steps, w := StreamStep(steps, w, a, f, Receive(a, 0), g);
  }
}
