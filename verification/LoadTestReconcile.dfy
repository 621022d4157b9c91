/**
 What a reconcile does with what it has read: which shards it sends a START for, what may become of the phase,
 and what a phase that was persisted says about the shards.
 */
module LoadTestReconcile {
  import opened Options
  import opened LoadTest
  import opened LoadTestPlan
  import opened LoadTestStop
  import opened LoadTestCompletion
  import S = LoadTestShards
  import Runs

  // ---------------------------------------------------------------------
  // Resending
  // ---------------------------------------------------------------------

  /** The shards from a to b without a status, in order. */
  ghost function Unreported(st: Statuses, a: nat, b: nat): seq<nat>
    requires a <= b
  {
    if a == b then [] else Unreported(st, a, b - 1) + if Reported(st, b - 1) then [] else [b - 1]
  }

  predicate IsStart(a: Action) {
    a.ByJob? && a.job.SendStart?
  }

  /** The shards for which the run tries to send a START, one after another. */
  ghost function Attempted(w: World, steps: seq<Step>): seq<nat> {
    if steps == [] then []
    else
      var init := steps[..|steps| - 1];
      Attempted(w, init)
      + match Run(w, init)
        case None => []
        case Some(u) => if IsStart(steps[|steps| - 1].action) && u.job.Starting? then [u.job.next] else []
  }

  /** One and the same pass is under way all the time. */
  ghost predicate InOnePass(w: World, steps: seq<Step>) {
    forall n :: 0 <= n <= |steps| && Run(w, steps[..n]).Some? ==> S.At(w, steps, n).job.Starting?
  }

  /** A step within a pass: a shard that has reported is passed over, one that has not is tried. */
  lemma PassStep(w: World, a: Action, v: World)
    requires Do(w, a) == Some(v) && w.job.Starting? && v.job.Starting?
    ensures v.job.lt == w.job.lt && v.job.statuses == w.job.statuses
    ensures v.job.next == w.job.next
            || (v.job.next == w.job.next + 1 && (IsStart(a) <==> !Reported(w.job.statuses, w.job.next)))
    ensures IsStart(a) ==> v.job.next == w.job.next + 1
  {
    match a
    case ByUser(u) =>
    case ByJob(j) =>
    case ByHub(h) => RegistryFrame(w, h, v);
    case BySpoke(s) => RemoteFrame(w, s, v);
    case ByList(l) =>
  }

  lemma OneFurther(st: Statuses, a: nat, b: nat, c: nat, sends: bool)
    requires a <= b && (c == b || (c == b + 1 && (sends <==> !Reported(st, b)))) && (sends ==> c == b + 1)
    ensures Unreported(st, a, c) == Unreported(st, a, b) + if sends then [b] else []
  {
    if c == b {
      assert !sends && Unreported(st, a, b) + [] == Unreported(st, a, b);
    } else {
      UnreportedNext(st, a, b);
    }
  }

  lemma UnreportedNext(st: Statuses, a: nat, b: nat)
    requires a <= b
    ensures Unreported(st, a, b + 1) == Unreported(st, a, b) + if Reported(st, b) then [] else [b]
  {
  }

  lemma AttemptedLast(w: World, steps: seq<Step>, u: World)
    requires steps != [] && Run(w, steps[..|steps| - 1]) == Some(u) && u.job.Starting?
    ensures Attempted(w, steps)
         == Attempted(w, steps[..|steps| - 1]) + if IsStart(steps[|steps| - 1].action) then [u.job.next] else []
  {
  }

  lemma ShorterPass(w: World, steps: seq<Step>)
    requires steps != [] && InOnePass(w, steps)
    ensures InOnePass(w, steps[..|steps| - 1])
  {
    var init := steps[..|steps| - 1];
    assert forall n :: 0 <= n <= |init| ==> init[..n] == steps[..n];
  }

  /** However the pass is interleaved with the steps of everybody else: it tries each shard that had no status
      when the pass began exactly once, in order, and no other. */
  lemma {:induction false} PassResends(w: World, steps: seq<Step>, v: World)
    requires Run(w, steps) == Some(v) && InOnePass(w, steps) && w.job.Starting? && v.job.Starting?
    ensures v.job.lt == w.job.lt && v.job.statuses == w.job.statuses && w.job.next <= v.job.next
    ensures Attempted(w, steps) == Unreported(w.job.statuses, w.job.next, v.job.next)
  {
    if steps == [] {
    } else {
      var n := |steps| - 1;
      S.LastStep(w, steps, v);
      ShorterPass(w, steps);
      var u := S.At(w, steps, n);
      PassResends(w, steps[..n], u);
      PassStep(u, steps[n].action, Do(u, steps[n].action).value);
      AttemptedLast(w, steps, u);
      OneFurther(w.job.statuses, w.job.next, u.job.next, v.job.next, IsStart(steps[n].action));
    }
  }

  /** What is put into the owner's queue, last in line: the START of that shard, with the number of shards. */
  lemma StartQueued(w: World, v: World)
    requires Launching(w, SendStart(Queued)) == Some(v)
    ensures var owners, i := w.job.lt.status.plan.owners, w.job.next;
            && i < |owners| && w.hub.Up? && owners[i] in w.hub.entries && v.hub.Up? && owners[i] in v.hub.entries
            && v.hub.entries[owners[i]].buffer == w.hub.entries[owners[i]].buffer + [Start(i, |owners|)]
            && v.left == w.left && forall sp :: sp != owners[i] ==>
                 (sp in v.hub.entries <==> sp in w.hub.entries)
                 && (sp in v.hub.entries ==> v.hub.entries[sp] == w.hub.entries[sp])
  {
  }

  // ---------------------------------------------------------------------
  // Stopping
  // ---------------------------------------------------------------------

  predicate IsStop(a: Action) {
    a.ByJob? && a.job.SendStop?
  }

  predicate IsRefusal(a: Action) {
    IsStop(a) && a.job.outcome.BufferFull?
  }

  /** The places in the roster for which the run sends a STOP, one after another. */
  ghost function Stops(w: World, steps: seq<Step>): seq<nat> {
    if steps == [] then []
    else
      var init := steps[..|steps| - 1];
      Stops(w, init)
      + match Run(w, init)
        case None => []
        case Some(u) => if IsStop(steps[|steps| - 1].action) && u.job.Stopping? then [u.job.next] else []
  }

  ghost predicate InOneStop(w: World, steps: seq<Step>) {
    forall n :: 0 <= n <= |steps| && Run(w, steps[..n]).Some? ==> S.At(w, steps, n).job.Stopping?
  }

  lemma StopStep(w: World, a: Action, v: World)
    requires Do(w, a) == Some(v) && w.job.Stopping? && v.job.Stopping?
    ensures v.job.lt == w.job.lt && v.job.why == w.job.why
    ensures v.job.next == w.job.next + (if IsStop(a) then 1 else 0)
    ensures v.job.ok <==> w.job.ok && !IsRefusal(a)
  {
    match a
    case ByUser(u) =>
    case ByJob(j) =>
    case ByHub(h) => RegistryFrame(w, h, v);
    case BySpoke(s) => RemoteFrame(w, s, v);
    case ByList(l) =>
  }

  lemma ShorterStop(w: World, steps: seq<Step>)
    requires steps != [] && InOneStop(w, steps)
    ensures InOneStop(w, steps[..|steps| - 1])
  {
    var init := steps[..|steps| - 1];
    assert forall n :: 0 <= n <= |init| ==> init[..n] == steps[..n];
  }

  lemma StopsLast(w: World, steps: seq<Step>, u: World)
    requires steps != [] && Run(w, steps[..|steps| - 1]) == Some(u) && u.job.Stopping?
    ensures Stops(w, steps)
         == Stops(w, steps[..|steps| - 1]) + if IsStop(steps[|steps| - 1].action) then [u.job.next] else []
  {
  }

  /** a, a + 1 and so on up to b. */
  ghost predicate CountsFrom(list: seq<nat>, a: nat, b: nat) {
    |list| == b - a && forall i :: 0 <= i < |list| ==> list[i] == a + i
  }

  lemma CountOn(list: seq<nat>, a: nat, b: nat)
    requires CountsFrom(list, a, b)
    ensures CountsFrom(list + [b], a, b + 1) && CountsFrom(list + [], a, b)
  {
  }

  /** No full buffer refuses a STOP in the run. */
  ghost predicate NoneRefuses(steps: seq<Step>) {
    forall i :: 0 <= i < |steps| ==> !IsRefusal(steps[i].action)
  }

  lemma RefusesLast(steps: seq<Step>)
    requires steps != []
    ensures NoneRefuses(steps) <==> NoneRefuses(steps[..|steps| - 1]) && !IsRefusal(steps[|steps| - 1].action)
  {
    var init := steps[..|steps| - 1];
    assert forall i :: 0 <= i < |init| ==> init[i] == steps[i];
  }

  /** A pass of STOPs tries every assigned spoke once, in order, however it is interleaved, and it is complete if
      and only if no full buffer refused one: a spoke that is not registered any more does not hold it up. */
  lemma {:induction false} StopPass(w: World, steps: seq<Step>, v: World)
    requires Run(w, steps) == Some(v) && InOneStop(w, steps) && w.job.Stopping? && v.job.Stopping?
    ensures v.job.lt == w.job.lt && v.job.why == w.job.why
    ensures CountsFrom(Stops(w, steps), w.job.next, v.job.next)
    ensures v.job.ok <==> w.job.ok && NoneRefuses(steps)
  {
    if steps == [] {
    } else {
      var n := |steps| - 1;
      S.LastStep(w, steps, v);
      ShorterStop(w, steps);
      var u := S.At(w, steps, n);
      StopPass(w, steps[..n], u);
      StopStep(u, steps[n].action, Do(u, steps[n].action).value);
      StopsLast(w, steps, u);
      CountOn(Stops(w, steps[..n]), w.job.next, u.job.next);
      RefusesLast(steps);
    }
  }

  // ---------------------------------------------------------------------
  // The decision
  // ---------------------------------------------------------------------

  predicate Going(p: Phase) {
    p.Distributing? || p.Running?
  }

  ghost predicate AbortFits(w: World) {
    w.job.Stopping? && w.job.why.Policy? ==> Going(w.job.lt.status.phase)
  }

  lemma NoAbortBefore(w: World, j: JobAction, v: World)
    requires Open(w, j) == Some(v) || Prepare(w, j) == Some(v) || Launching(w, j) == Some(v)
    ensures v.job.Stopping? ==> v.job.why.Deletion?
  {
  }

  lemma EndingKeepsAbort(w: World, j: JobAction, v: World)
    requires AbortFits(w) && Ending(w, j) == Some(v)
    ensures AbortFits(v)
  {
  }

  lemma StepKeepsAbort(w: World, a: Action, v: World)
    requires AbortFits(w) && Do(w, a) == Some(v)
    ensures AbortFits(v)
  {
    match a
    case ByUser(u) =>
    case ByJob(j) =>
      if Ending(w, j) == Some(v) {
        EndingKeepsAbort(w, j, v);
      } else {
        NoAbortBefore(w, j, v);
      }
    case ByHub(h) => RegistryFrame(w, h, v);
    case BySpoke(s) => RemoteFrame(w, s, v);
    case ByList(l) =>
  }

  /** Only a load test that is still going, by the statuses just read, is ever aborted. */
  lemma OnlyGoingIsAborted(steps: seq<Step>, w: World)
    requires Run(INIT, steps) == Some(w) && w.job.Stopping? && w.job.why.Policy?
    ensures Going(w.job.lt.status.phase)
  {
    forall x, s | AbortFits(x) && Next(x, s).Some? ensures AbortFits(Next(x, s).value) {
      StepKeepsAbort(x, s.action, Do(x, s.action).value);
    }
    RunInduction(x => AbortFits(x), s => true, INIT, steps, w);
  }

  /** A load test that was found to be completed or failed is saved as such, unless the reconcile is given up. */
  lemma DecisionStands(w: World, j: JobAction, v: World)
    requires w.job.Deciding? && Terminal(w.job.lt.status.phase) && Reconcile(w, j) == Some(v)
    ensures v.job.Idle? || v.job == Saving(w.job.lt, None)
  {
  }

  /** A target that is denied fails the load test, a missing server or spoke lets it wait; if nobody has changed
      the resource in between, that is what is persisted. */
  lemma RefusedOrWaiting(w: World, j: JobAction, v: World)
    requires w.job.Ready? && !Terminal(w.job.lt.status.phase) && Matches(w.cr, w.job.lt)
    requires j.Deny? || j.AwaitServer? || j.NoSpokes?
    requires Run(w, [Step(ByJob(j), 0), Step(ByJob(Persist), 0)]) == Some(v)
    ensures v.cr.Present? && v.cr.r.status == w.job.lt.status.(phase := if j.Deny? then Failed else Pending)
    ensures j.AwaitServer? ==> w.job.srv.NoServer?
    ensures j.NoSpokes? ==> w.job.srv.Handle? && w.job.lt.status.plan.roster == []
  {
    var first, second := Step(ByJob(j), 0), Step(ByJob(Persist), 0);
    assert [first, second] == [first] + [second] && [] + [first] == [first] && Run(w, []) == Some(w);
    Runs.Extended(Stepper(), w, [], w, first);
    assert Stepper()(w, first) == Next(w, first);
    assert [first, second][..1] == [first];
    var u := Next(w, first).value;
    Runs.Extended(Stepper(), w, [first], u, second);
    assert Stepper()(u, second) == Next(u, second);
  }

  /** A plan that was accepted is persisted, with the phase Distributing, before anything is sent for it. */
  lemma PlannedIsPersisted(w: World, p: Plan, v: World)
    requires Prepare(w, MakePlan(p)) == Some(v) && v.job.Planned?
    ensures v.cr.Present? && v.cr.r == v.job.lt && v.cr.r.status == w.job.lt.status.(phase := Distributing, plan := p)
    ensures v.hub == w.hub && v.left == w.left && v.launched == w.launched
  {
  }

  // ---------------------------------------------------------------------
  // The persisted phase
  // ---------------------------------------------------------------------

  lemma StatusStays(w: World, a: Action, v: World)
    requires StopInv(w) && w.cr.Present? && Terminal(w.cr.r.status.phase) && Do(w, a) == Some(v) && v.cr.Present?
    ensures v.cr.r.status == w.cr.r.status
  {
    match a
    case ByUser(u) =>
    case ByJob(j) => JobKeepsStatus(w, j, v);
    case ByHub(h) => RegistryFrame(w, h, v);
    case BySpoke(s) => RemoteFrame(w, s, v);
    case ByList(l) =>
  }

  lemma JobKeepsStatus(w: World, j: JobAction, v: World)
    requires JobFits(w.cr, w.job) && w.cr.Present? && Terminal(w.cr.r.status.phase)
    requires Reconcile(w, j) == Some(v) && v.cr.Present?
    ensures v.cr.r.status == w.cr.r.status
  {
    if Open(w, j) == Some(v) || Prepare(w, j) == Some(v) {
    } else if Launching(w, j) == Some(v) {
      LaunchingFrame(w, j, v);
    } else {
      assert j.Persist? || j.Release? || v.cr == w.cr;
    }
  }

  ghost predicate SameStatus(s: Status, w: World) {
    OverInv(w) && (w.cr.Present? ==> w.cr.r.status == s) && !w.cr.Absent?
  }

  /** A verdict is final: once the phase is Completed, Failed or Aborted, phase, plan and counters never change
      again, whatever anybody does, as long as the load test exists. */
  lemma VerdictIsFinal(w: World, steps: seq<Step>, v: World)
    requires OverInv(w) && w.cr.Present? && Run(w, steps) == Some(v)
    ensures v.cr.Present? ==> v.cr.r.status == w.cr.r.status
  {
    var status := w.cr.r.status;
    forall x, s | SameStatus(status, x) && Next(x, s).Some? ensures SameStatus(status, Next(x, s).value) {
      NextKeepsOver(x, s);
      var y := Do(x, s.action).value;
      if y.cr.Present? {
        NeverBack(x, s.action, y);
        StatusStays(x, s.action, y);
      }
    }
    RunInduction(x => SameStatus(status, x), s => true, w, steps, v);
  }

  /** What is gone does not come back. */
  lemma NeverBack(w: World, a: Action, v: World)
    requires Do(w, a) == Some(v) && v.cr.Present?
    ensures w.cr.Present? || w.cr.Absent?
  {
    match a
    case ByUser(u) =>
    case ByJob(j) => JobFrame(w, j, v);
    case ByHub(h) => RegistryFrame(w, h, v);
    case BySpoke(s) => RemoteFrame(w, s, v);
    case ByList(l) =>
  }

  /** Every shard was done or broken on its spoke at some time, and one was broken. */
  ghost predicate OneWasBroken(p: Plan, history: set<Report>) {
    && |p.owners| > 0
    && (forall i :: 0 <= i < |p.owners| ==> WasOver(p, i, history))
    && exists i :: 0 <= i < |p.owners| && Report(p.owners[i], i, Broken) in history
  }

  ghost predicate WasOver(p: Plan, i: nat, history: set<Report>)
    requires i < |p.owners|
  {
    Report(p.owners[i], i, Done) in history || Report(p.owners[i], i, Broken) in history
  }

  ghost predicate FailureFits(w: World) {
    && (w.cr.Present? && w.cr.r.status.phase.Failed? ==> OneWasBroken(w.plan, w.history))
    && (!w.job.Idle? && w.job.lt.status.phase.Failed? ==> OneWasBroken(w.plan, w.history))
  }

  lemma AggregateFails(w: World, v: World)
    requires PlanInv(w) && StopInv(w) && Launching(w, Aggregate) == Some(v) && v.job.lt.status.phase.Failed?
    ensures OneWasBroken(w.plan, w.history)
  {
    var st, p := w.job.statuses, w.plan;
    StatusesAreOwned(w);
    AggregateIff(w.job.lt.status, st);
    assert StatusesReported(st, w.history);
    forall i | 0 <= i < |p.owners| ensures WasOver(p, i, w.history) {
      assert Has(st, p.owners, i, Done) || Has(st, p.owners, i, Broken);
      assert (p.owners[i], i) in st;
    }
    var i :| Has(st, p.owners, i, Broken);
    assert (p.owners[i], i) in st;
  }

  lemma FailureJob(w: World, j: JobAction, v: World)
    requires FailureFits(w) && PlanInv(w) && StopInv(w) && Reconcile(w, j) == Some(v) && !j.Deny?
    ensures FailureFits(v)
  {
    JobFrame(w, j, v);
    if Open(w, j) == Some(v) || Prepare(w, j) == Some(v) {
      FailureOpening(w, j, v);
    } else if Launching(w, j) == Some(v) {
      FailureLaunching(w, j, v);
    } else {
      FailureEnding(w, j, v);
    }
  }

  lemma FailureOpening(w: World, j: JobAction, v: World)
    requires FailureFits(w) && StopInv(w) && (Open(w, j) == Some(v) || Prepare(w, j) == Some(v)) && !j.Deny?
    ensures FailureFits(v)
  {
    assert v.history == w.history && (v.plan == w.plan || j.MakePlan?);
  }

  lemma FailureLaunching(w: World, j: JobAction, v: World)
    requires FailureFits(w) && PlanInv(w) && StopInv(w) && Launching(w, j) == Some(v)
    ensures FailureFits(v)
  {
    LaunchingFrame(w, j, v);
    if j.Aggregate? {
      if v.job.lt.status.phase.Failed? {
        AggregateFails(w, v);
      }
    } else {
      assert v.job.lt == w.job.lt;
    }
  }

  lemma FailureEnding(w: World, j: JobAction, v: World)
    requires FailureFits(w) && Ending(w, j) == Some(v)
    ensures FailureFits(v)
  {
    EndingFrame(w, j, v);
    assert v.job.Idle? || v.job.lt == w.job.lt || v.job.lt.status.phase.Aborted?;
    assert v.cr == w.cr || v.cr.Gone? || v.cr.r.status == w.job.lt.status;
  }

  lemma FailureStep(w: World, a: Action, v: World)
    requires FailureFits(w) && PlanInv(w) && StopInv(w) && Do(w, a) == Some(v) && a != ByJob(Deny)
    ensures FailureFits(v)
  {
    match a
    case ByUser(u) => FailureUser(w, u, v);
    case ByJob(j) => FailureJob(w, j, v);
    case ByHub(h) => FailureRegistry(w, h, v);
    case BySpoke(s) => FailureRemote(w, s, v);
    case ByList(l) => FailureLists(w, l, v);
  }

  lemma FailureUser(w: World, u: UserAction, v: World)
    requires FailureFits(w) && User(w, u) == Some(v)
    ensures FailureFits(v)
  {
    assert v == w.(cr := v.cr);
  }

  lemma FailureLists(w: World, l: ListAction, v: World)
    requires FailureFits(w) && Lists(w, l) == Some(v)
    ensures FailureFits(v)
  {
    assert v.cr == w.cr && v.job == w.job && v.plan == w.plan && v.history == w.history;
  }

  lemma FailureRegistry(w: World, h: HubAction, v: World)
    requires FailureFits(w) && Registry(w, h) == Some(v)
    ensures FailureFits(v)
  {
    RegistryFrame(w, h, v);
  }

  lemma FailureRemote(w: World, s: SpokeAction, v: World)
    requires FailureFits(w) && Remote(w, s) == Some(v)
    ensures FailureFits(v)
  {
    RemoteFrame(w, s, v);
    if OneWasBroken(w.plan, w.history) {
      StillBroken(w.plan, w.history, v.history);
    }
  }

  lemma StillBroken(p: Plan, history: set<Report>, more: set<Report>)
    requires OneWasBroken(p, history) && history <= more
    ensures OneWasBroken(p, more)
  {
    forall i | 0 <= i < |p.owners| ensures WasOver(p, i, more) {
      assert WasOver(p, i, history);
    }
    var i :| 0 <= i < |p.owners| && Report(p.owners[i], i, Broken) in history;
    assert Report(p.owners[i], i, Broken) in more;
  }

  lemma {:induction false} FailureHolds(steps: seq<Step>, w: World)
    requires Run(INIT, steps) == Some(w) && forall i :: 0 <= i < |steps| ==> steps[i].action != ByJob(Deny)
    ensures FailureFits(w)
  {
    if steps == [] {
    } else {
      var n := |steps| - 1;
      S.LastStep(INIT, steps, w);
      var u := S.At(INIT, steps, n);
      FailureHolds(steps[..n], u);
      StopHolds(steps[..n], u);
      FailureStep(u, steps[n].action, Do(u, steps[n].action).value);
    }
  }

  /** Unless its target was denied, a load test fails only when every shard is over on its spoke and one of them
      is broken. */
  lemma FailureIsReal(steps: seq<Step>, w: World)
    requires Run(INIT, steps) == Some(w) && w.cr.Present? && w.cr.r.status.phase.Failed?
    requires forall i :: 0 <= i < |steps| ==> steps[i].action != ByJob(Deny)
    ensures OneWasBroken(w.plan, w.history)
  {
    FailureHolds(steps, w);
  }
}
