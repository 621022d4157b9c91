/**
 Plan stability: the plan is persisted before the first START and never replaced, so every START ever
 queued for a shard goes to the same spoke with the same shard count, and every shard, report and
 directive in the system stems from such a START.
 */
module LoadTestPlan {
  import opened Options
  import opened LoadTest
  import opened Collections

  predicate Owns(p: Plan, sp: Spoke, i: nat) {
    i < |p.owners| && p.owners[i] == sp
  }

  /** Every START follows the plan. */
  ghost predicate LaunchesFollow(launched: set<Launch>, p: Plan) {
    forall l :: l in launched ==> Owns(p, l.spoke, l.index) && l.count == |p.owners|
  }

  ghost predicate Sourced(sp: Spoke, q: seq<Directive>, launched: set<Launch>) {
    forall d :: d in q && d.Start? ==> Launch(sp, d.index, d.count) in launched
  }

  ghost predicate EntrySourced(sp: Spoke, e: Entry, launched: set<Launch>) {
    Sourced(sp, e.buffer, launched) && forall id :: id in e.streams ==> Sourced(sp, e.streams[id], launched)
  }

  ghost predicate EntriesSourced(entries: map<Spoke, Entry>, launched: set<Launch>) {
    forall sp :: sp in entries ==> EntrySourced(sp, entries[sp], launched)
  }

  ghost predicate FlyingSourced(flying: multiset<(Spoke, Directive)>, launched: set<Launch>) {
    forall x :: x in flying && x.1.Start? ==> Launch(x.0, x.1.index, x.1.count) in launched
  }

  ghost predicate LeftSourced(left: Left, launched: set<Launch>) {
    && (forall k :: k in left.stale ==> Sourced(k.0, left.stale[k].queue, launched))
    && FlyingSourced(left.flying, launched)
  }

  ghost predicate ShardsSourced(shards: map<(Spoke, nat), Shard>, launched: set<Launch>) {
    forall k :: k in shards ==> Launch(k.0, k.1, shards[k].count) in launched
  }

  ghost predicate HistoryOwned(history: set<Report>, p: Plan) {
    forall r :: r in history ==> Owns(p, r.spoke, r.index)
  }

  ghost predicate ReplaysReported(entries: map<Spoke, Entry>, history: set<Report>) {
    forall sp, i :: sp in entries && i in entries[sp].replays ==> Report(sp, i, entries[sp].replays[i]) in history
  }

  ghost predicate StatusesReported(st: Statuses, history: set<Report>) {
    forall k :: k in st ==> Report(k.0, k.1, st[k]) in history
  }

  ghost predicate PlanRecorded(cr: Store, job: Job, p: Plan) {
    && (cr.Present? ==> cr.r.status.plan == p)
    && (!job.Idle? ==> job.lt.status.plan == p)
    && (cr.Absent? ==> p == NO_PLAN && job.Idle?)
    && (p == NO_PLAN || WellPlanned(p))
  }

  ghost predicate DirectivesSourced(hub: Hub, left: Left, launched: set<Launch>) {
    (hub.Up? ==> EntriesSourced(hub.entries, launched)) && LeftSourced(left, launched)
  }

  ghost predicate ReportsSourced(hub: Hub, job: Job, history: set<Report>) {
    && (hub.Up? ==> ReplaysReported(hub.entries, history))
    && (job.Starting? ==> StatusesReported(job.statuses, history))
  }

  ghost predicate PlanInv(w: World) {
    && PlanRecorded(w.cr, w.job, w.plan)
    && LaunchesFollow(w.launched, w.plan)
    && DirectivesSourced(w.hub, w.left, w.launched)
    && ShardsSourced(w.shards, w.launched)
    && HistoryOwned(w.history, w.plan)
    && ReportsSourced(w.hub, w.job, w.history)
  }

  /** Nothing of w's plan or of its STARTs is forgotten in v. */
  ghost predicate Extends(w: World, v: World) {
    (w.plan.roster != [] ==> v.plan == w.plan) && w.launched <= v.launched
  }

  // ---------------------------------------------------------------------
  // Preservation
  // ---------------------------------------------------------------------

  lemma {:induction false} TaggedIn(sp: Spoke, q: seq<Directive>, x: (Spoke, Directive))
    ensures x in Tagged(sp, q) <==> x.0 == sp && x.1 in q && !x.1.Other?
  {
    if q == [] {
    } else {
      TaggedIn(sp, q[1..], x);
    }
  }

  lemma TaggedSourced(sp: Spoke, q: seq<Directive>, launched: set<Launch>)
    requires Sourced(sp, q, launched)
    ensures FlyingSourced(Tagged(sp, q), launched)
  {
    forall x | x in Tagged(sp, q) && x.1.Start? ensures Launch(x.0, x.1.index, x.1.count) in launched {
      TaggedIn(sp, q, x);
    }
  }

  lemma StreamsSourced(sp: Spoke, streams: Streams, launched: set<Launch>)
    requires forall id :: id in streams ==> Sourced(sp, streams[id], launched)
    ensures FlyingSourced(Bag(OnStreams(sp, streams)), launched)
  {
    var bags := OnStreams(sp, streams);
    forall x: (Spoke, Directive) | x in Bag(bags) && x.1.Start? ensures Launch(x.0, x.1.index, x.1.count) in launched {
      BagIn(bags, x);
      var id :| id in bags && x in bags[id];
      TaggedSourced(sp, streams[id], launched);
    }
  }

  lemma RetireSourced(left: Left, sp: Spoke, e: Entry, launched: set<Launch>)
    requires LeftSourced(left, launched) && EntrySourced(sp, e, launched)
    ensures LeftSourced(Retire(left, sp, e), launched)
  {
    StreamsSourced(sp, e.streams, launched);
  }

  lemma {:induction false} RetireAllSourced(left: Left, entries: map<Spoke, Entry>, launched: set<Launch>)
    requires LeftSourced(left, launched) && EntriesSourced(entries, launched)
    ensures LeftSourced(RetireAll(left, entries), launched)
    decreases entries
  {
    if entries == map[] {
    } else {
      var sp :| sp in entries && RetireAll(left, entries) == RetireAll(Retire(left, sp, entries[sp]), entries - {sp});
      RetireSourced(left, sp, entries[sp], launched);
      RetireAllSourced(Retire(left, sp, entries[sp]), entries - {sp}, launched);
    }
  }

  lemma OpenKeeps(w: World, a: JobAction, v: World)
    requires PlanInv(w) && Open(w, a) == Some(v)
    ensures PlanInv(v) && Extends(w, v)
  {
    assert v == w.(job := v.job, cr := v.cr);
  }

  lemma PrepareKeeps(w: World, a: JobAction, v: World)
    requires PlanInv(w) && Prepare(w, a) == Some(v)
    ensures PlanInv(v) && Extends(w, v)
  {
    if a.MakePlan? {
      assert w.plan == NO_PLAN;
      assert forall l :: l in w.launched ==> false;
      assert forall r :: r in w.history ==> false;
    }
  }

  lemma PushKeepsSources(hub: Hub, sp: Spoke, d: Directive, launched: set<Launch>, history: set<Report>)
    requires hub.Up? && sp in hub.entries && EntriesSourced(hub.entries, launched)
    requires d.Start? ==> Launch(sp, d.index, d.count) in launched
    ensures EntriesSourced(Push(hub, sp, d).entries, launched)
    ensures ReplaysReported(hub.entries, history) ==> ReplaysReported(Push(hub, sp, d).entries, history)
  {
    assert EntrySourced(sp, hub.entries[sp], launched);
    assert Sourced(sp, hub.entries[sp].buffer + [d], launched);
  }

  lemma MisplaceKeepsSources(left: Left, sp: Spoke, gen: nat, d: Directive, launched: set<Launch>)
    requires LeftSourced(left, launched) && (d.Start? ==> Launch(sp, d.index, d.count) in launched)
    ensures LeftSourced(Misplace(left, sp, gen, d), launched)
  {
    if (sp, gen) in left.stale {
      assert Sourced(sp, left.stale[(sp, gen)].queue + [d], launched);
    }
  }

  /** Sending a directive changes one queue, and no report. */
  lemma SendKeepsSources(w: World, sp: Spoke, t: Target, d: Directive, o: Outcome, v: World, launched: set<Launch>)
    requires Send(w, sp, t, d, o) == Some(v) && DirectivesSourced(w.hub, w.left, launched)
    requires d.Start? && Accepted(o) ==> Launch(sp, d.index, d.count) in launched
    ensures v == w.(hub := v.hub, left := v.left) && DirectivesSourced(v.hub, v.left, launched)
    ensures w.hub.Up? && ReplaysReported(w.hub.entries, w.history) ==> ReplaysReported(v.hub.entries, w.history)
    ensures v.hub.Up? <==> w.hub.Up?
  {
    if o.Queued? {
      PushKeepsSources(w.hub, sp, d, launched, w.history);
    } else if o.Misrouted? {
      MisplaceKeepsSources(w.left, sp, t.gen, d, launched);
    }
  }

  lemma SendingStartKeeps(w: World, o: Outcome, v: World)
    requires PlanInv(w) && Launching(w, SendStart(o)) == Some(v)
    ensures PlanInv(v) && Extends(w, v)
  {
    var owners, i := w.job.lt.status.plan.owners, w.job.next;
    var sent := Send(w, owners[i], w.job.target, Start(i, |owners|), o).value;
    SendKeepsSources(w, owners[i], w.job.target, Start(i, |owners|), o, sent, v.launched);
    assert v == sent.(job := v.job, launched := v.launched);
  }

  lemma LaunchingKeeps(w: World, a: JobAction, v: World)
    requires PlanInv(w) && Launching(w, a) == Some(v)
    ensures PlanInv(v) && Extends(w, v)
  {
    if a.SendStart? {
      SendingStartKeeps(w, a.outcome, v);
    } else {
      assert a.Snapshot? && Current(w.hub, w.job.srv) ==> StatusesReported(View(w.hub), w.history);
      assert v == w.(job := v.job) && v.job.lt.status.plan == w.job.lt.status.plan;
      assert v.job.Starting? ==> StatusesReported(v.job.statuses, w.history);
    }
  }

  lemma SendingStopKeeps(w: World, o: Outcome, v: World)
    requires PlanInv(w) && Ending(w, SendStop(o)) == Some(v)
    ensures PlanInv(v) && Extends(w, v)
  {
    var sp := w.job.lt.status.plan.roster[w.job.next];
    var sent := Send(w, sp, w.job.target, Stop, o).value;
    SendKeepsSources(w, sp, w.job.target, Stop, o, sent, w.launched);
    assert v == sent.(job := v.job);
  }

  lemma StoppedKeeps(w: World, v: World)
    requires PlanInv(w) && Ending(w, Stopped) == Some(v)
    ensures PlanInv(v) && Extends(w, v)
  {
    assert v == w.(job := v.job, hub := v.hub);
  }

  lemma EndingKeeps(w: World, a: JobAction, v: World)
    requires PlanInv(w) && Ending(w, a) == Some(v)
    ensures PlanInv(v) && Extends(w, v)
  {
    if a.SendStop? {
      SendingStopKeeps(w, a.outcome, v);
    } else if a.Stopped? {
      StoppedKeeps(w, v);
    } else {
      assert v == w.(job := v.job, cr := v.cr, aborted := v.aborted);
    }
  }

  lemma RegistryKeeps(w: World, a: HubAction, v: World)
    requires PlanInv(w) && Registry(w, a) == Some(v)
    ensures PlanInv(v) && Extends(w, v)
  {
    match a
    case StartServer =>
    case StopServer => RetireAllSourced(w.left, w.hub.entries, w.launched);
    case Crash =>
      if w.hub.Up? {
        RetireAllSourced(w.left, w.hub.entries, w.launched);
      }
    case Register(sp, capacity) =>
      if sp in w.hub.entries {
        RetireSourced(w.left, sp, w.hub.entries[sp], w.launched);
      }
    case Deregister(sp) => RetireSourced(w.left, sp, w.hub.entries[sp], w.launched);
    case SendOther(sp) =>
  }

  lemma HandledSourced(w: World, sp: Spoke, d: Directive)
    requires ShardsSourced(w.shards, w.launched)
    requires HistoryOwned(w.history, w.plan) && LaunchesFollow(w.launched, w.plan)
    requires d.Start? ==> Launch(sp, d.index, d.count) in w.launched
    ensures ShardsSourced(Handled(w.shards, sp, d, w.now), w.launched)
    ensures HistoryOwned(w.history + Born(sp, d), w.plan)
  {
  }

  lemma StreamKeeps(w: World, a: SpokeAction, v: World)
    requires PlanInv(w) && Stream(w, a) == Some(v)
    ensures PlanInv(v) && Extends(w, v)
  {
    if a.Receive? {
      HandledSourced(w, a.sp, w.hub.entries[a.sp].streams[a.id][0]);
    }
  }

  lemma LateStreamKeeps(w: World, a: SpokeAction, v: World)
    requires PlanInv(w) && LateStream(w, a) == Some(v)
    ensures PlanInv(v) && Extends(w, v)
  {
    match a
    case StaleSends(sp, g) =>
      var q := w.left.stale[(sp, g)].queue;
      assert Sourced(sp, q, w.launched);
      TaggedSourced(sp, q[..1], w.launched);
    case LateArrives(sp, d) => HandledSourced(w, sp, d);
    case _ =>
  }

  lemma ShardsKeep(w: World, a: SpokeAction, v: World)
    requires PlanInv(w) && Shards(w, a) == Some(v)
    ensures PlanInv(v) && Extends(w, v)
  {
  }

  lemma RemoteKeeps(w: World, a: SpokeAction, v: World)
    requires PlanInv(w) && Remote(w, a) == Some(v)
    ensures PlanInv(v) && Extends(w, v)
  {
    if Stream(w, a) == Some(v) {
      StreamKeeps(w, a, v);
    } else if Shards(w, a) == Some(v) {
      ShardsKeep(w, a, v);
    } else {
      LateStreamKeeps(w, a, v);
    }
  }

  lemma ListsKeeps(w: World, a: ListAction, v: World)
    requires PlanInv(w) && Lists(w, a) == Some(v)
    ensures PlanInv(v) && Extends(w, v)
  {
  }

  lemma UserKeeps(w: World, a: UserAction, v: World)
    requires PlanInv(w) && User(w, a) == Some(v)
    ensures PlanInv(v) && Extends(w, v)
  {
    assert v == w.(cr := v.cr);
  }

  lemma StepKeepsPlan(w: World, a: Action, v: World)
    requires PlanInv(w) && Do(w, a) == Some(v)
    ensures PlanInv(v) && Extends(w, v)
  {
    match a
    case ByUser(u) => UserKeeps(w, u, v);
    case ByJob(j) =>
      if Open(w, j) == Some(v) {
        OpenKeeps(w, j, v);
      } else if Prepare(w, j) == Some(v) {
        PrepareKeeps(w, j, v);
      } else if Launching(w, j) == Some(v) {
        LaunchingKeeps(w, j, v);
      } else {
        EndingKeeps(w, j, v);
      }
    case ByHub(h) => RegistryKeeps(w, h, v);
    case BySpoke(s) => RemoteKeeps(w, s, v);
    case ByList(l) => ListsKeeps(w, l, v);
  }

  // ---------------------------------------------------------------------
  // Whole runs
  // ---------------------------------------------------------------------

  lemma NextKeepsPlan(w: World, s: Step)
    requires PlanInv(w) && Next(w, s).Some?
    ensures PlanInv(Next(w, s).value)
  {
    StepKeepsPlan(w, s.action, Do(w, s.action).value);
  }

  lemma PlanHolds(steps: seq<Step>, w: World)
    requires Run(INIT, steps) == Some(w)
    ensures PlanInv(w)
  {
    forall x, s | PlanInv(x) && Next(x, s).Some? ensures PlanInv(Next(x, s).value) {
      NextKeepsPlan(x, s);
    }
    RunInduction(x => PlanInv(x), s => true, INIT, steps, w);
  }

  /** Every START ever queued follows the one persisted plan; two for the same shard are the same. */
  lemma PlanStability(steps: seq<Step>, w: World)
    requires Run(INIT, steps) == Some(w)
    ensures forall l :: l in w.launched ==> Owns(w.plan, l.spoke, l.index) && l.count == |w.plan.owners|
    ensures forall l, m :: l in w.launched && m in w.launched && l.index == m.index ==> l == m
    ensures forall k :: k in w.shards ==> Owns(w.plan, k.0, k.1) && w.shards[k].count == |w.plan.owners|
    ensures w.cr.Present? ==> w.cr.r.status.plan == w.plan
  {
    PlanHolds(steps, w);
    forall k | k in w.shards ensures Owns(w.plan, k.0, k.1) && w.shards[k].count == |w.plan.owners| {
      assert Launch(k.0, k.1, w.shards[k].count) in w.launched;
    }
  }

  lemma NextKeepsOnePlan(w: World, v: World, s: Step)
    requires PlanInv(v) && Extends(w, v) && Next(v, s).Some?
    ensures PlanInv(Next(v, s).value) && Extends(w, Next(v, s).value)
  {
    StepKeepsPlan(v, s.action, Do(v, s.action).value);
  }

  /** Once made, the plan is never replaced, and no START is ever forgotten. */
  lemma PlanNeverReplaced(w: World, steps: seq<Step>, v: World)
    requires PlanInv(w) && Run(w, steps) == Some(v)
    ensures Extends(w, v)
  {
    forall x, s | PlanInv(x) && Extends(w, x) && Next(x, s).Some?
      ensures PlanInv(Next(x, s).value) && Extends(w, Next(x, s).value)
    {
      NextKeepsOnePlan(w, x, s);
    }
    RunInduction(x => PlanInv(x) && Extends(w, x), s => true, w, steps, v);
  }
}
