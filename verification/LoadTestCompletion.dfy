/**
 Completion soundness: statuses map one-to-one into the shard indexes of the plan, so the counters never
 exceed the number of shards, and Completed is only entered when every shard has really completed on the
 spoke that owns it.
 */
module LoadTestCompletion {
  import opened Options
  import opened LoadTest
  import opened LoadTestPlan
  import opened Collections

  // ---------------------------------------------------------------------
  // Counting statuses
  // ---------------------------------------------------------------------

  ghost function Expected(owners: seq<Spoke>): set<(Spoke, nat)> {
    set i: nat | i < |owners| :: (owners[i], i)
  }

  lemma {:induction false} ExpectedCount(owners: seq<Spoke>)
    ensures |Expected(owners)| == |owners|
  {
    if owners == [] {
      assert Expected(owners) == {};
    } else {
      var n := |owners| - 1;
      var init := owners[..n];
      ExpectedCount(init);
      assert Expected(owners) == Expected(init) + {(owners[n], n)};
      assert (owners[n], n) !in Expected(init);
    }
  }

  ghost predicate StatusesOwned(st: Statuses, p: Plan) {
    forall k :: k in st ==> Owns(p, k.0, k.1)
  }

  ghost predicate EachDone(st: Statuses, owners: seq<Spoke>) {
    forall i :: 0 <= i < |owners| ==> (owners[i], i) in st && st[(owners[i], i)].Done?
  }

  lemma AllOrNot(st: Statuses, owners: seq<Spoke>)
    requires InPhase(st, Done) <= Expected(owners)
    ensures InPhase(st, Done) == Expected(owners) <==> EachDone(st, owners)
  {
    if InPhase(st, Done) == Expected(owners) {
      forall i | 0 <= i < |owners| ensures (owners[i], i) in st && st[(owners[i], i)].Done? {
        assert (owners[i], i) in Expected(owners);
      }
    }
  }

  /** Pigeonhole: no more terminal statuses than shards, and as many completed ones as shards only if every
      shard has one. */
  lemma Pigeonhole(st: Statuses, p: Plan)
    requires StatusesOwned(st, p)
    ensures CountPhase(st, Done) + CountPhase(st, Broken) <= |p.owners|
    ensures CountPhase(st, Done) == |p.owners| <==> EachDone(st, p.owners)
  {
    var done, broken, expected := InPhase(st, Done), InPhase(st, Broken), Expected(p.owners);
    ExpectedCount(p.owners);
    assert done !! broken && |done + broken| == |done| + |broken|;
    SubsetCount(done + broken, expected);
    SubsetCount(done, expected);
    AllOrNot(st, p.owners);
  }

  /** Every shard has completed on its spoke at some time. */
  ghost predicate AllDone(p: Plan, history: set<Report>) {
    |p.owners| > 0 && forall i :: 0 <= i < |p.owners| ==> Report(p.owners[i], i, Done) in history
  }

  ghost predicate Truthful(s: Status, history: set<Report>) {
    s.completed + s.failed <= |s.plan.owners| && (s.phase.Completed? ==> AllDone(s.plan, history))
  }

  // --- by shard index ---------------------------------------------------

  /** The status of shard i, as far as its owner has reported one. */
  ghost predicate Has(st: Statuses, owners: seq<Spoke>, i: int, ph: ShardPhase) {
    0 <= i < |owners| && (owners[i], i) in st && st[(owners[i], i)] == ph
  }

  /** The shard indexes with a status in this phase. */
  ghost function IndexesIn(st: Statuses, owners: seq<Spoke>, ph: ShardPhase): set<nat> {
    set i: nat | i < |owners| && Has(st, owners, i, ph)
  }

  ghost function Indexes(keys: set<(Spoke, nat)>): set<nat> {
    set k | k in keys :: k.1
  }

  lemma {:induction false} ByIndex(keys: set<(Spoke, nat)>)
    requires forall k, l :: k in keys && l in keys && k.1 == l.1 ==> k == l
    ensures |Indexes(keys)| == |keys|
  {
    if keys == {} {
    } else {
      var k :| k in keys;
      ByIndex(keys - {k});
      assert Indexes(keys - {k}) == Indexes(keys) - {k.1};
    }
  }

  /** The statuses in a phase are as many as the shard indexes that have one. */
  lemma CountIsIndexes(st: Statuses, p: Plan, ph: ShardPhase)
    requires StatusesOwned(st, p)
    ensures CountPhase(st, ph) == |IndexesIn(st, p.owners, ph)|
  {
    ByIndex(InPhase(st, ph));
    forall i | i in IndexesIn(st, p.owners, ph) ensures i in Indexes(InPhase(st, ph)) {
      assert (p.owners[i], i) in InPhase(st, ph);
    }
    forall k | k in InPhase(st, ph) ensures k.1 in IndexesIn(st, p.owners, ph) {
      assert Owns(p, k.0, k.1);
    }
    assert IndexesIn(st, p.owners, ph) == Indexes(InPhase(st, ph));
  }

  ghost predicate EachOver(st: Statuses, owners: seq<Spoke>) {
    forall i :: 0 <= i < |owners| ==> Has(st, owners, i, Done) || Has(st, owners, i, Broken)
  }

  ghost predicate SomeIn(st: Statuses, owners: seq<Spoke>, ph: ShardPhase) {
    exists i :: Has(st, owners, i, ph)
  }

  lemma SomeCounted(st: Statuses, p: Plan, ph: ShardPhase)
    requires StatusesOwned(st, p)
    ensures CountPhase(st, ph) > 0 <==> SomeIn(st, p.owners, ph)
  {
    CountIsIndexes(st, p, ph);
    if SomeIn(st, p.owners, ph) {
      var i :| Has(st, p.owners, i, ph);
      assert i in IndexesIn(st, p.owners, ph);
    } else {
      assert IndexesIn(st, p.owners, ph) == {};
    }
  }

  /** As many terminal statuses as shards means one for each. */
  lemma AllOver(st: Statuses, p: Plan)
    requires StatusesOwned(st, p)
    ensures CountPhase(st, Done) + CountPhase(st, Broken) == |p.owners| <==> EachOver(st, p.owners)
  {
    var done, broken, expected := InPhase(st, Done), InPhase(st, Broken), Expected(p.owners);
    ExpectedCount(p.owners);
    assert done !! broken && |done + broken| == |done| + |broken| && done + broken <= expected;
    SubsetCount(done + broken, expected);
    if EachOver(st, p.owners) {
      forall k | k in expected ensures k in done + broken {
        assert Has(st, p.owners, k.1, Done) || Has(st, p.owners, k.1, Broken);
      }
    }
    if done + broken == expected {
      forall i | 0 <= i < |p.owners| ensures Has(st, p.owners, i, Done) || Has(st, p.owners, i, Broken) {
        assert (p.owners[i], i) in expected;
      }
    }
  }

  /** The phase that the statuses of the shards call for. */
  ghost predicate PhaseFits(before: Phase, after: Phase, st: Statuses, owners: seq<Spoke>) {
    var active, done, broken := SomeIn(st, owners, Active), SomeIn(st, owners, Done), SomeIn(st, owners, Broken);
    var over := |owners| > 0 && EachOver(st, owners);
    && (over && !broken ==> after.Completed?)
    && (over && broken ==> after.Failed?)
    && (!over && (active || done || broken) ==> after.Running?)
    && (!over && !active && !done && !broken ==> after == before)
  }

  /** Each outcome of the aggregation, and when it comes about: Completed when every shard is done, Failed when
      every shard is over and one is broken, Running when neither holds and some shard has got going, and
      otherwise no change. The counters are the numbers of shards. */
  lemma AggregateDecides(s: Status, st: Statuses)
    requires StatusesOwned(st, s.plan)
    ensures PhaseFits(s.phase, Aggregated(s, st).phase, st, s.plan.owners)
    ensures Aggregated(s, st).completed == |IndexesIn(st, s.plan.owners, Done)|
    ensures Aggregated(s, st).failed == |IndexesIn(st, s.plan.owners, Broken)|
    ensures Aggregated(s, st).plan == s.plan
  {
    var owners := s.plan.owners;
    CountIsIndexes(st, s.plan, Done);
    CountIsIndexes(st, s.plan, Broken);
    SomeCounted(st, s.plan, Active);
    SomeCounted(st, s.plan, Done);
    SomeCounted(st, s.plan, Broken);
    Pigeonhole(st, s.plan);
    AllOver(st, s.plan);
  }

  /** The same as conditions on the outcome, for a load test that was still going. */
  lemma AggregateIff(s: Status, st: Statuses)
    requires StatusesOwned(st, s.plan) && !Terminal(s.phase)
    ensures var owners, after := s.plan.owners, Aggregated(s, st).phase;
            && (after.Completed? <==> |owners| > 0 && EachDone(st, owners))
            && (after.Failed? <==> |owners| > 0 && EachOver(st, owners) && SomeIn(st, owners, Broken))
            && (!s.phase.Running? ==>
                  (after.Running? <==>
                     && !(|owners| > 0 && EachOver(st, owners))
                     && (SomeIn(st, owners, Active) || SomeIn(st, owners, Done) || SomeIn(st, owners, Broken))))
  {
    AggregateDecides(s, st);
    var owners := s.plan.owners;
    if EachDone(st, owners) {
      forall i | 0 <= i < |owners| ensures Has(st, owners, i, Done) {
        assert (owners[i], i) in st && st[(owners[i], i)].Done?;
      }
      assert EachOver(st, owners) && !SomeIn(st, owners, Broken);
    }
    if EachOver(st, owners) && !SomeIn(st, owners, Broken) {
      forall i | 0 <= i < |owners| ensures (owners[i], i) in st && st[(owners[i], i)].Done? {
        assert !Has(st, owners, i, Broken);
      }
    }
  }

  /** One status per shard at most, and Completed exactly when each shard has one and it is completed. */
  lemma AggregateTruthful(s: Status, st: Statuses, history: set<Report>)
    requires Truthful(s, history) && !s.phase.Completed? && StatusesOwned(st, s.plan) && StatusesReported(st, history)
    ensures Truthful(Aggregated(s, st), history)
    ensures forall k, l :: k in st && l in st && k.1 == l.1 ==> k == l
    ensures Aggregated(s, st).phase.Completed?
       <==> |s.plan.owners| > 0 && EachDone(st, s.plan.owners)
  {
    Pigeonhole(st, s.plan);
    if Aggregated(s, st).phase.Completed? {
      forall i | 0 <= i < |s.plan.owners| ensures Report(s.plan.owners[i], i, Done) in history {
        assert (s.plan.owners[i], i) in st;
      }
    }
  }

  // ---------------------------------------------------------------------
  // Every run
  // ---------------------------------------------------------------------

  ghost predicate DoneInv(w: World) {
    && (w.cr.Present? ==> Truthful(w.cr.r.status, w.history))
    && (!w.job.Idle? ==> Truthful(w.job.lt.status, w.history))
    && (w.job.Planned? || w.job.Starting? ==> !w.job.lt.status.phase.Completed?)
  }

  lemma DoneOpening(w: World, j: JobAction, v: World)
    requires DoneInv(w) && PlanInv(w) && (Open(w, j) == Some(v) || Prepare(w, j) == Some(v))
    ensures DoneInv(v)
  {
    if Open(w, j) == Some(v) {
      DoneOpen(w, j, v);
    } else {
      DonePrepare(w, j, v);
    }
  }

  lemma DoneOpen(w: World, j: JobAction, v: World)
    requires DoneInv(w) && Open(w, j) == Some(v)
    ensures DoneInv(v)
  {
    assert v.history == w.history && !v.job.Planned? && !v.job.Starting?;
  }

  lemma DonePrepare(w: World, j: JobAction, v: World)
    requires DoneInv(w) && PlanInv(w) && Prepare(w, j) == Some(v)
    ensures DoneInv(v)
  {
    assert v.history == w.history;
  }

  /** The statuses a reconcile works with are those of owners. */
  lemma StatusesAreOwned(w: World)
    requires PlanInv(w) && w.job.Starting?
    ensures StatusesOwned(w.job.statuses, w.plan) && w.job.lt.status.plan == w.plan
  {
    var st := w.job.statuses;
    forall k | k in st ensures Owns(w.plan, k.0, k.1) {
      assert Report(k.0, k.1, st[k]) in w.history;
    }
  }

  lemma DoneLaunching(w: World, j: JobAction, v: World)
    requires DoneInv(w) && PlanInv(w) && Launching(w, j) == Some(v)
    ensures DoneInv(v)
  {
    assert v.history == w.history && v.cr == w.cr;
    if j.Aggregate? {
      var st := w.job.statuses;
      StatusesAreOwned(w);
      AggregateTruthful(w.job.lt.status, st, w.history);
    } else {
      assert v.job.lt == w.job.lt;
    }
  }

  lemma DoneEnding(w: World, j: JobAction, v: World)
    requires DoneInv(w) && Ending(w, j) == Some(v)
    ensures DoneInv(v)
  {
    assert v.history == w.history;
    assert !v.job.Planned? && !v.job.Starting?;
    assert v.job.Idle? || v.job.lt == w.job.lt || v.job.lt == WithPhase(w.job.lt, Aborted);
  }

  lemma DoneJob(w: World, j: JobAction, v: World)
    requires DoneInv(w) && PlanInv(w) && Reconcile(w, j) == Some(v)
    ensures DoneInv(v)
  {
    if Open(w, j) == Some(v) || Prepare(w, j) == Some(v) {
      DoneOpening(w, j, v);
    } else if Launching(w, j) == Some(v) {
      DoneLaunching(w, j, v);
    } else {
      DoneEnding(w, j, v);
    }
  }

  lemma DoneOutside(w: World, a: Action, v: World)
    requires DoneInv(w) && !a.ByJob? && Do(w, a) == Some(v)
    ensures DoneInv(v)
  {
    match a
    case ByUser(u) => assert v == w.(cr := v.cr);
    case ByHub(h) => RegistryFrame(w, h, v);
    case BySpoke(s) => RemoteFrame(w, s, v);
    case ByList(l) => assert v.cr == w.cr && v.history == w.history && v.job == w.job;
  }

  lemma DoneStep(w: World, a: Action, v: World)
    requires DoneInv(w) && PlanInv(w) && Do(w, a) == Some(v)
    ensures DoneInv(v)
  {
    if a.ByJob? {
      DoneJob(w, a.job, v);
    } else {
      DoneOutside(w, a, v);
    }
  }

  lemma NextKeepsDone(w: World, s: Step)
    requires DoneInv(w) && PlanInv(w) && Next(w, s).Some?
    ensures DoneInv(Next(w, s).value) && PlanInv(Next(w, s).value)
  {
    DoneStep(w, s.action, Do(w, s.action).value);
    NextKeepsPlan(w, s);
  }

  /** In every reachable state the aggregation decides as the shards' statuses call for, with nothing assumed
      about them. */
  lemma ReconcileDecides(steps: seq<Step>, w: World, v: World)
    requires Run(INIT, steps) == Some(w) && Launching(w, Aggregate) == Some(v)
    ensures PhaseFits(w.job.lt.status.phase, v.job.lt.status.phase, w.job.statuses, w.plan.owners)
    ensures v.job.lt.status.completed == |IndexesIn(w.job.statuses, w.plan.owners, Done)|
    ensures v.job.lt.status.failed == |IndexesIn(w.job.statuses, w.plan.owners, Broken)|
  {
    PlanHolds(steps, w);
    StatusesAreOwned(w);
    AggregateDecides(w.job.lt.status, w.job.statuses);
  }

  /** Three shards, one broken and one at work: the load test runs on. */
  lemma OneBrokenIsRunning(a: Spoke, plan: Plan)
    requires plan.owners == [a, a, a]
    ensures Aggregated(Status(Distributing, plan, 0, 0), map[(a, 0) := Broken, (a, 1) := Active])
         == Status(Running, plan, 0, 1)
  {
    var st: Statuses := map[(a, 0) := Broken, (a, 1) := Active];
    assert InPhase(st, Done) == {} && InPhase(st, Broken) == {(a, 0)} && InPhase(st, Active) == {(a, 1)};
  }

  /** In every reachable state the counters fit the number of shards, and a Completed load test has
      completed every shard on the spoke the plan gives it to. */
  lemma CompletionSoundness(steps: seq<Step>, w: World)
    requires Run(INIT, steps) == Some(w)
    ensures w.cr.Present? ==> w.cr.r.status.completed + w.cr.r.status.failed <= |w.plan.owners|
    ensures w.cr.Present? && w.cr.r.status.phase.Completed? ==>
      |w.plan.owners| > 0 && forall i :: 0 <= i < |w.plan.owners| ==> Report(w.plan.owners[i], i, Done) in w.history
  {
    forall x, s | DoneInv(x) && PlanInv(x) && Next(x, s).Some?
      ensures DoneInv(Next(x, s).value) && PlanInv(Next(x, s).value)
    {
      NextKeepsDone(x, s);
    }
    RunInduction(x => DoneInv(x) && PlanInv(x), s => true, INIT, steps, w);
  }
}
