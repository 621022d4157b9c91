/**
 Stop safety: once the Aborted phase is persisted, or the finalizer was released through a running hub
 server, an assigned spoke that kept the registration which took the STOP, lost no STOP and had no START
 left from a replaced registration ends up without a shard of the load test when it has worked off its
 queue, as long as the registration never had two streams at once, or had no START left to deliver when it
 took the STOP. And no START is ever queued again.
 */
module LoadTestStop {
  import opened Options
  import opened LoadTest
  import opened LoadTestPlan
  import opened LoadTestQueue
  import opened Collections

  // ---------------------------------------------------------------------
  // What an accepted STOP guarantees
  // ---------------------------------------------------------------------

  /** The spoke kept the registration that took the STOP, and that registration has lost no STOP. */
  ghost predicate Kept(ack: Ack, hub: Hub, sp: Spoke, lost: set<nat>) {
    ack.Taken? && ack.quiet && hub.Up? && sp in hub.entries && hub.entries[sp].gen == ack.gen && ack.gen !in lost
  }

  /** The queue leaves no shard behind: in order if the registration was never shared, and in whatever order
      if no START was left in it. */
  ghost predicate Cleans(ack: Ack, e: Entry, live: set<nat>, shared: set<nat>) {
    && (e.gen !in shared ==> EndsClean(e, live))
    && (ack.Taken? && ack.clear ==> EndsCleanAnyhow(e, live))
  }

  ghost predicate Good(
    ack: Ack, hub: Hub, sp: Spoke, left: Left, shards: map<(Spoke, nat), Shard>, lost: set<nat>, shared: set<nat>)
  {
    Kept(ack, hub, sp, lost) ==> Cleans(ack, hub.entries[sp], Live(shards, sp), shared) && Quiet(left, sp)
  }

  ghost predicate AcksGood(
    acks: Acks, hub: Hub, left: Left, shards: map<(Spoke, nat), Shard>, lost: set<nat>, shared: set<nat>)
  {
    forall sp :: sp in acks ==> Good(acks[sp], hub, sp, left, shards, lost, shared)
  }

  ghost predicate AcksPast(acks: Acks, serial: nat) {
    forall sp :: sp in acks && acks[sp].Taken? ==> acks[sp].gen < serial
  }

  ghost predicate EntriesPast(hub: Hub, serial: nat) {
    hub.Up? ==> forall sp :: sp in hub.entries ==> hub.entries[sp].gen < serial
  }

  /** A registration that was never shared has one stream at most. */
  ghost predicate SharedFits(hub: Hub, shared: set<nat>) {
    hub.Up? ==> forall sp :: sp in hub.entries && hub.entries[sp].gen !in shared ==> Alone(hub.entries[sp])
  }

  /** A list of answers is as good as it can be in this world. */
  ghost predicate Sound(acks: Acks, w: World) {
    AcksGood(acks, w.hub, w.left, w.shards, w.lost, w.shared) && AcksPast(acks, w.serial)
  }

  // --- steps that leave a list of answers sound ------------------------

  /** One registration changes, and with it the shards of its spoke. */
  lemma EntrySound(acks: Acks, w: World, sp: Spoke, f: Entry, v: World)
    requires Sound(acks, w) && w.hub.Up? && sp in w.hub.entries && f.gen == w.hub.entries[sp].gen
    requires v.hub == Update(w, sp, f) && v.left == w.left && v.serial == w.serial
    requires w.lost <= v.lost && w.shared <= v.shared
    requires SharedFits(w.hub, w.shared) && SharedFits(v.hub, v.shared)
    requires f.gen in v.lost || Keeps(w.hub.entries[sp], Live(w.shards, sp), f, Live(v.shards, sp))
    requires forall other :: other != sp ==> Live(v.shards, other) == Live(w.shards, other)
    ensures Sound(acks, v)
  {
    forall other | other in acks ensures Good(acks[other], v.hub, other, v.left, v.shards, v.lost, v.shared) {
      assert Good(acks[other], w.hub, other, w.left, w.shards, w.lost, w.shared);
      if Kept(acks[other], v.hub, other, v.lost) {
        assert Kept(acks[other], w.hub, other, w.lost);
      }
    }
  }

  lemma PushFits(w: World, sp: Spoke, d: Directive)
    requires w.hub.Up? && sp in w.hub.entries && SharedFits(w.hub, w.shared)
    ensures SharedFits(Push(w.hub, sp, d), w.shared)
  {
    var e := w.hub.entries[sp];
    assert Alone(e) ==> Alone(e.(buffer := e.buffer + [d]));
  }

  lemma PushSound(acks: Acks, w: World, sp: Spoke, d: Directive)
    requires Sound(acks, w) && !d.Start? && w.hub.Up? && sp in w.hub.entries && SharedFits(w.hub, w.shared)
    ensures Sound(acks, w.(hub := Push(w.hub, sp, d)))
  {
    var e := w.hub.entries[sp];
    PushKeeps(e, d, Live(w.shards, sp));
    PushFits(w, sp, d);
    EntrySound(acks, w, sp, e.(buffer := e.buffer + [d]), w.(hub := Push(w.hub, sp, d)));
  }

  /** A directive other than START is put into a replaced queue. */
  lemma MisplaceQuiet(left: Left, sp: Spoke, gen: nat, d: Directive, other: Spoke)
    requires !d.Start? && Quiet(left, other)
    ensures Quiet(Misplace(left, sp, gen, d), other)
  {
    var after := Misplace(left, sp, gen, d);
    forall k | k in after.stale && k.0 == other ensures Calm(after.stale[k].queue) {
      assert Calm(left.stale[k].queue);
    }
  }

  /** Only what replaced registrations left changes, and what was quiet stays so. */
  lemma LeftSound(acks: Acks, w: World, v: World)
    requires Sound(acks, w) && v == w.(left := v.left)
    requires forall other :: Quiet(w.left, other) ==> Quiet(v.left, other)
    ensures Sound(acks, v)
  {
    forall other | other in acks ensures Good(acks[other], v.hub, other, v.left, v.shards, v.lost, v.shared) {
      assert Good(acks[other], w.hub, other, w.left, w.shards, w.lost, w.shared);
    }
  }

  lemma SendSound(acks: Acks, w: World, sp: Spoke, t: Target, d: Directive, o: Outcome, v: World)
    requires Sound(acks, w) && !d.Start? && SharedFits(w.hub, w.shared) && Send(w, sp, t, d, o) == Some(v)
    ensures Sound(acks, v)
  {
    if o.Queued? {
      PushSound(acks, w, sp, d);
    } else if o.Misrouted? {
      forall other | Quiet(w.left, other) ensures Quiet(v.left, other) {
        MisplaceQuiet(w.left, sp, t.gen, d, other);
      }
      LeftSound(acks, w, v);
    }
  }

  lemma RetiredQuiet(left: Left, sp: Spoke, e: Entry, other: Spoke)
    requires other != sp && Quiet(left, other)
    ensures Quiet(Retire(left, sp, e), other)
  {
    var bags := OnStreams(sp, e.streams);
    forall x: (Spoke, Directive) | x in Bag(bags) ensures x.0 == sp {
      BagIn(bags, x);
      var id :| id in bags && x in bags[id];
      TaggedIn(sp, e.streams[id], x);
    }
  }

  lemma ReplacedSound(acks: Acks, w: World, sp: Spoke, v: World)
    requires Sound(acks, w) && w.hub.Up? && v.hub.Up? && v.left == Retired(w, sp) && v.shards == w.shards
    requires v.lost == w.lost && v.shared == w.shared && v.serial >= w.serial
    requires sp in v.hub.entries ==> v.hub.entries[sp].gen == w.serial
    requires forall other :: other != sp ==> (other in v.hub.entries <==> other in w.hub.entries)
    requires forall other :: other != sp && other in v.hub.entries ==> v.hub.entries[other] == w.hub.entries[other]
    ensures Sound(acks, v)
  {
    forall other | other in acks ensures Good(acks[other], v.hub, other, v.left, v.shards, v.lost, v.shared) {
      assert Good(acks[other], w.hub, other, w.left, w.shards, w.lost, w.shared);
      if Kept(acks[other], v.hub, other, v.lost) && sp in w.hub.entries && Quiet(w.left, other) && other != sp {
        RetiredQuiet(w.left, sp, w.hub.entries[sp], other);
      }
    }
  }

  lemma RegistrySound(acks: Acks, w: World, a: HubAction, v: World)
    requires Sound(acks, w) && SharedFits(w.hub, w.shared) && Registry(w, a) == Some(v)
    ensures Sound(acks, v)
  {
    match a
    case SendOther(sp) => PushSound(acks, w, sp, Other);
    case Register(sp, capacity) => ReplacedSound(acks, w, sp, v);
    case Deregister(sp) => ReplacedSound(acks, w, sp, v);
    case _ =>
  }

  lemma RegistryFits(w: World, a: HubAction, v: World)
    requires SharedFits(w.hub, w.shared) && Registry(w, a) == Some(v)
    ensures SharedFits(v.hub, v.shared)
  {
    if a.SendOther? {
      PushFits(w, a.sp, Other);
    }
  }

  lemma StreamFits(w: World, a: SpokeAction, v: World)
    requires SharedFits(w.hub, w.shared) && Stream(w, a) == Some(v)
    ensures SharedFits(v.hub, v.shared)
  {
    var e, f := w.hub.entries[a.sp], v.hub.entries[a.sp];
    if f.gen !in v.shared {
      assert Alone(e) && f.streams.Keys <= (if a.Watch? then {a.id} else e.streams.Keys);
    }
  }

  /** A step of a stream, as a change of its registration. */
  lemma StreamChange(w: World, a: SpokeAction, v: World)
    requires Stream(w, a) == Some(v)
    ensures w.hub.Up? && a.sp in w.hub.entries && v.hub.Up? && a.sp in v.hub.entries
    ensures var e, f := w.hub.entries[a.sp], v.hub.entries[a.sp];
            && v.hub == Update(w, a.sp, f) && f.gen == e.gen && v.left == w.left && v.serial == w.serial
            && (f.gen in v.lost || Keeps(e, Live(w.shards, a.sp), f, Live(v.shards, a.sp)))
    ensures forall other :: other != a.sp ==> Live(v.shards, other) == Live(w.shards, other)
  {
    var e, live := w.hub.entries[a.sp], Live(w.shards, a.sp);
    match a {
      case Watch(sp, id) => WatchKeeps(e, id, live);
      case HangUp(sp, id) => HangUpKeeps(e, id, live);
      case Pop(sp, id) => PopKeeps(e, id, live);
      case Lose(sp, id, n) =>
        if Stop !in e.streams[id][..n] {
          LoseKeeps(e, id, n, live);
        }
      case Receive(sp, id) =>
        ReceiveKeeps(e, id, live);
        forall other ensures Live(v.shards, other)
                          == if other == sp then Effect(e.streams[id][0], live) else Live(w.shards, other)
        {
          HandledLive(w.shards, sp, e.streams[id][0], w.now, other);
        }
    }
  }

  lemma StreamSound(acks: Acks, w: World, a: SpokeAction, v: World)
    requires Sound(acks, w) && SharedFits(w.hub, w.shared) && Stream(w, a) == Some(v)
    ensures Sound(acks, v)
  {
    StreamChange(w, a, v);
    StreamFits(w, a, v);
    EntrySound(acks, w, a.sp, v.hub.entries[a.sp], v);
  }

  /** The shards of a spoke become fewer, or stay. */
  lemma FewerSound(acks: Acks, w: World, v: World)
    requires Sound(acks, w) && v.hub == w.hub && v.serial == w.serial && v.lost == w.lost && v.shared == w.shared
    requires forall other :: Quiet(w.left, other)
               ==> Quiet(v.left, other) && Live(v.shards, other) <= Live(w.shards, other)
    ensures Sound(acks, v)
  {
    forall other | other in acks ensures Good(acks[other], v.hub, other, v.left, v.shards, v.lost, v.shared) {
      assert Good(acks[other], w.hub, other, w.left, w.shards, w.lost, w.shared);
      if Kept(acks[other], w.hub, other, w.lost) {
        var e := w.hub.entries[other];
        AfterMonotone(Line(e), Live(v.shards, other), Live(w.shards, other));
      }
    }
  }

  lemma ArrivalSound(acks: Acks, w: World, sp: Spoke, d: Directive, v: World)
    requires Sound(acks, w) && LateStream(w, LateArrives(sp, d)) == Some(v)
    ensures Sound(acks, v)
  {
    forall other | Quiet(w.left, other)
      ensures Quiet(v.left, other) && Live(v.shards, other) <= Live(w.shards, other)
    {
      HandledLive(w.shards, sp, d, w.now, other);
      assert (sp, d) in w.left.flying;
    }
    FewerSound(acks, w, v);
  }

  /** A watcher of a replaced queue sends what is first in it. */
  lemma StaleSendsQuiet(w: World, sp: Spoke, g: nat, v: World, other: Spoke)
    requires LateStream(w, StaleSends(sp, g)) == Some(v) && Quiet(w.left, other)
    ensures Quiet(v.left, other)
  {
    var q := w.left.stale[(sp, g)].queue;
    forall k | k in v.left.stale && k.0 == other ensures Calm(v.left.stale[k].queue) {
      assert Calm(w.left.stale[k].queue);
    }
    forall x | x in v.left.flying && x.0 == other ensures !x.1.Start? {
      TaggedIn(sp, q[..1], x);
      assert sp == other ==> Calm(q);
    }
  }

  lemma LateStreamSound(acks: Acks, w: World, a: SpokeAction, v: World)
    requires Sound(acks, w) && LateStream(w, a) == Some(v)
    ensures Sound(acks, v)
  {
    if a.LateArrives? {
      ArrivalSound(acks, w, a.sp, a.d, v);
    } else {
      forall other | Quiet(w.left, other) ensures Quiet(v.left, other) {
        if a.StaleSends? {
          StaleSendsQuiet(w, a.sp, a.gen, v, other);
        }
      }
      LeftSound(acks, w, v);
    }
  }

  lemma ShardsSound(acks: Acks, w: World, a: SpokeAction, v: World)
    requires Sound(acks, w) && SharedFits(w.hub, w.shared) && Shards(w, a) == Some(v)
    ensures Sound(acks, v) && SharedFits(v.hub, v.shared)
  {
    if a.RunShard? {
      assert v.shards.Keys == w.shards.Keys;
      FewerSound(acks, w, v);
    } else {
      var e, f := w.hub.entries[a.sp], v.hub.entries[a.sp];
      assert f.streams == e.streams && f.buffer == e.buffer && (Alone(e) <==> Alone(f));
      assert Keeps(e, Live(w.shards, a.sp), f, Live(v.shards, a.sp));
      EntrySound(acks, w, a.sp, f, v);
    }
  }

  lemma RemoteSound(acks: Acks, w: World, a: SpokeAction, v: World)
    requires Sound(acks, w) && SharedFits(w.hub, w.shared) && Remote(w, a) == Some(v)
    ensures Sound(acks, v)
  {
    if Stream(w, a) == Some(v) {
      StreamSound(acks, w, a, v);
    } else if Shards(w, a) == Some(v) {
      ShardsSound(acks, w, a, v);
    } else {
      LateStreamSound(acks, w, a, v);
    }
  }

  lemma RemoteFits(w: World, a: SpokeAction, v: World)
    requires SharedFits(w.hub, w.shared) && Remote(w, a) == Some(v)
    ensures SharedFits(v.hub, v.shared)
  {
    if Stream(w, a) == Some(v) {
      StreamFits(w, a, v);
    } else if Shards(w, a) == Some(v) && a.SendReport? {
      var e, f := w.hub.entries[a.sp], v.hub.entries[a.sp];
      assert f.streams == e.streams && (Alone(e) <==> Alone(f));
    }
  }

  lemma ListsSound(acks: Acks, w: World, a: ListAction, v: World)
    requires Sound(acks, w) && Lists(w, a) == Some(v)
    ensures Sound(acks, v)
  {
    assert v.shards.Keys <= w.shards.Keys;
    FewerSound(acks, w, v);
  }

  lemma StoppedSound(acks: Acks, w: World, v: World)
    requires Sound(acks, w) && SharedFits(w.hub, w.shared) && Ending(w, Stopped) == Some(v)
    ensures Sound(acks, v) && SharedFits(v.hub, v.shared)
  {
    EndingFrame(w, Stopped, v);
    forall sp | v.hub.Up? && sp in v.hub.entries ensures SameQueues(w.hub, v.hub, sp) {}
    forall sp | sp in acks ensures Good(acks[sp], v.hub, sp, v.left, v.shards, v.lost, v.shared) {
      assert Good(acks[sp], w.hub, sp, w.left, w.shards, w.lost, w.shared);
      if Kept(acks[sp], v.hub, sp, v.lost) {
        assert SameQueues(w.hub, v.hub, sp);
        SameQueueClean(w.hub.entries[sp], v.hub.entries[sp], Live(w.shards, sp));
      }
    }
    forall sp | v.hub.Up? && sp in v.hub.entries && v.hub.entries[sp].gen !in v.shared
      ensures Alone(v.hub.entries[sp])
    {
      assert SameQueues(w.hub, v.hub, sp) && Alone(w.hub.entries[sp]);
    }
  }

  ghost predicate SameQueues(h: Hub, g: Hub, sp: Spoke) {
    && h.Up? && g.Up? && sp in h.entries && sp in g.entries && g.entries[sp].gen == h.entries[sp].gen
    && g.entries[sp].streams == h.entries[sp].streams && g.entries[sp].buffer == h.entries[sp].buffer
  }

  lemma SameQueueClean(e: Entry, f: Entry, live: set<nat>)
    requires f.streams == e.streams && f.buffer == e.buffer
    ensures EndsClean(f, live) <==> EndsClean(e, live)
    ensures EndsCleanAnyhow(f, live) <==> EndsCleanAnyhow(e, live)
  {
  }

  /** A queued STOP settles its spoke. */
  lemma FreshAck(acks: Acks, w: World, sp: Spoke, t: Target, o: Outcome, v: World)
    requires Sound(acks, w) && SharedFits(w.hub, w.shared) && EntriesPast(w.hub, w.serial)
    requires Send(w, sp, t, Stop, o) == Some(v)
    ensures Sound(acks[sp := AckOf(w, sp, o)], v)
  {
    SendSound(acks, w, sp, t, Stop, o, v);
    if o.Queued? {
      var e, f := w.hub.entries[sp], v.hub.entries[sp];
      assert Line(f) == Line(e) + [Stop];
      AfterSnoc(Line(e), Stop, Live(w.shards, sp));
      assert HasStop(f) && (Clear(e) ==> Clear(f));
    }
  }

  // ---------------------------------------------------------------------
  // Where the reconciler can stand
  // ---------------------------------------------------------------------

  /** The resource is there, carries the finalizer, and has not reached a terminal phase. */
  predicate Ongoing(cr: Store) {
    cr.Present? && cr.r.finalizer && !Terminal(cr.r.status.phase)
  }

  predicate JobFits(cr: Store, job: Job) {
    match job
    case Idle => true
    case Begun(lt, srv) =>
      && (cr.Present? ==> cr.r.status == lt.status)
      && (lt.finalizer ==> cr.Present? && cr.r.finalizer)
      && (lt.deleting && cr.Present? ==> cr.r.deleting)
    case Ready(lt, srv) => cr.Present? && cr.r.finalizer && cr.r.status == lt.status
    case Planned(lt, srv) => Ongoing(cr) && cr.r.status == lt.status
    case Starting(lt, srv, st, next, target) => Ongoing(cr) && cr.r.status == lt.status
    case Deciding(lt, srv) => Ongoing(cr) && !lt.status.phase.Aborted?
    case Stopping(lt, srv, why, next, target, ok, answers) =>
      if why.Policy? then Ongoing(cr) && !lt.status.phase.Aborted?
      else cr.Present? && cr.r.finalizer && cr.r.deleting
    case Saving(lt, acks) => Ongoing(cr) && (acks.Some? <==> lt.status.phase.Aborted?)
    case Releasing(lt, acks) => cr.Present? && cr.r.finalizer && cr.r.deleting
  }

  predicate AbortedFits(cr: Store, aborted: Option<Acks>) {
    && (cr.Present? ==> (aborted.Some? <==> cr.r.status.phase.Aborted?))
    && (cr.Absent? ==> aborted.None?)
  }

  /** Answers from exactly these spokes. */
  ghost predicate Covers(acks: Acks, spokes: seq<Spoke>) {
    forall sp :: sp in acks <==> sp in spokes
  }

  ghost predicate NoneRefused(acks: Acks) {
    forall sp :: sp in acks ==> !acks[sp].Refused?
  }

  /** Every assigned spoke answered, and none with a full buffer. */
  ghost predicate Complete(acks: Acks, p: Plan) {
    Covers(acks, p.roster) && NoneRefused(acks)
  }

  ghost predicate Holds(acks: Option<Acks>, w: World) {
    acks.Some? ==> Sound(acks.value, w) && Complete(acks.value, w.plan)
  }

  ghost predicate JobHolds(w: World) {
    && (w.job.Stopping? ==>
          && w.job.next <= |w.plan.roster|
          && Sound(w.job.answers, w) && Covers(w.job.answers, w.plan.roster[..w.job.next])
          && (w.job.ok ==> NoneRefused(w.job.answers)))
    && (w.job.Saving? || w.job.Releasing? ==> Holds(w.job.acks, w))
  }

  ghost predicate StoreHolds(w: World) {
    Holds(w.aborted, w) && (w.cr.Gone? ==> Holds(w.cr.acks, w))
  }

  ghost predicate StopInv(w: World) {
    && JobFits(w.cr, w.job) && AbortedFits(w.cr, w.aborted)
    && EntriesPast(w.hub, w.serial) && SharedFits(w.hub, w.shared)
    && JobHolds(w) && StoreHolds(w)
  }

  // ---------------------------------------------------------------------
  // Preservation
  // ---------------------------------------------------------------------

  lemma StopRegistry(w: World, a: HubAction, v: World)
    requires StopInv(w) && Registry(w, a) == Some(v)
    ensures StopInv(v)
  {
    RegistryFits(w, a, v);
    forall acks: Acks | Sound(acks, w) ensures Sound(acks, v) {
      RegistrySound(acks, w, a, v);
    }
  }

  lemma StopRemote(w: World, a: SpokeAction, v: World)
    requires StopInv(w) && Remote(w, a) == Some(v)
    ensures StopInv(v)
  {
    RemoteFrame(w, a, v);
    RemoteFits(w, a, v);
    forall acks: Acks | Sound(acks, w) ensures Sound(acks, v) {
      RemoteSound(acks, w, a, v);
    }
  }

  lemma StopLists(w: World, a: ListAction, v: World)
    requires StopInv(w) && Lists(w, a) == Some(v)
    ensures StopInv(v)
  {
    forall acks: Acks | Sound(acks, w) ensures Sound(acks, v) {
      ListsSound(acks, w, a, v);
    }
  }

  lemma StopUser(w: World, a: UserAction, v: World)
    requires StopInv(w) && PlanInv(w) && User(w, a) == Some(v)
    ensures StopInv(v)
  {
    assert v == w.(cr := v.cr);
    assert forall acks: Acks :: Sound(acks, w) ==> Sound(acks, v);
  }

  lemma StopOpen(w: World, a: JobAction, v: World)
    requires StopInv(w) && PlanInv(w) && Open(w, a) == Some(v)
    ensures StopInv(v)
  {
    assert v == w.(cr := v.cr, job := v.job);
    assert forall acks: Acks :: Sound(acks, w) ==> Sound(acks, v);
  }

  lemma StopPrepare(w: World, a: JobAction, v: World)
    requires StopInv(w) && PlanInv(w) && Prepare(w, a) == Some(v)
    ensures StopInv(v)
  {
    assert v == w.(cr := v.cr, plan := v.plan, job := v.job);
    assert forall acks: Acks :: Sound(acks, w) ==> Sound(acks, v);
  }

  lemma SendKeepsGens(w: World, sp: Spoke, t: Target, d: Directive, o: Outcome, v: World)
    requires EntriesPast(w.hub, w.serial) && SharedFits(w.hub, w.shared) && Send(w, sp, t, d, o) == Some(v)
    ensures EntriesPast(v.hub, v.serial) && SharedFits(v.hub, v.shared)
  {
    if o.Queued? {
      PushFits(w, sp, d);
    }
  }

  lemma LaunchingGens(w: World, a: JobAction, v: World)
    requires EntriesPast(w.hub, w.serial) && SharedFits(w.hub, w.shared) && Launching(w, a) == Some(v)
    ensures EntriesPast(v.hub, v.serial) && SharedFits(v.hub, v.shared)
  {
    if a.SendStart? {
      var owners, i := w.job.lt.status.plan.owners, w.job.next;
      var sent := Send(w, owners[i], w.job.target, Start(i, |owners|), a.outcome).value;
      SendKeepsGens(w, owners[i], w.job.target, Start(i, |owners|), a.outcome, sent);
    }
  }

  lemma StopLaunching(w: World, a: JobAction, v: World)
    requires StopInv(w) && PlanInv(w) && Launching(w, a) == Some(v)
    ensures StopInv(v)
  {
    LaunchingFrame(w, a, v);
    LaunchingGens(w, a, v);
    // The resource is open, so nobody holds any answers yet.
    assert w.aborted.None? && v.aborted.None? && v.cr == w.cr && v.plan == w.plan;
    assert !v.job.Stopping? && !v.job.Saving? && !v.job.Releasing?;
    assert JobFits(v.cr, v.job);
  }

  /** Sending a STOP, from the plan that the reconciler has. */
  lemma SentSound(acks: Acks, w: World, o: Outcome, v: World)
    requires Sound(acks, w) && SharedFits(w.hub, w.shared) && Ending(w, SendStop(o)) == Some(v)
    ensures Sound(acks, v)
  {
    var sp := w.job.lt.status.plan.roster[w.job.next];
    var sent := Send(w, sp, w.job.target, Stop, o).value;
    SendSound(acks, w, sp, w.job.target, Stop, o, sent);
    assert v == sent.(job := v.job);
  }

  lemma SentAnswer(w: World, o: Outcome, v: World)
    requires StopInv(w) && PlanInv(w) && Ending(w, SendStop(o)) == Some(v)
    ensures v.job.Stopping? && Sound(v.job.answers, v) && v.plan == w.plan
    ensures v.job.next == w.job.next + 1 <= |w.plan.roster|
    ensures Covers(v.job.answers, w.plan.roster[..v.job.next]) && (v.job.ok ==> NoneRefused(v.job.answers))
    ensures EntriesPast(v.hub, v.serial) && SharedFits(v.hub, v.shared)
  {
    var roster, i := w.plan.roster, w.job.next;
    var sent := Send(w, roster[i], w.job.target, Stop, o).value;
    FreshAck(w.job.answers, w, roster[i], w.job.target, o, sent);
    SendKeepsGens(w, roster[i], w.job.target, Stop, o, sent);
    assert v == sent.(job := v.job);
    assert roster[..i + 1] == roster[..i] + [roster[i]];
  }

  lemma StopSend(w: World, o: Outcome, v: World)
    requires StopInv(w) && PlanInv(w) && Ending(w, SendStop(o)) == Some(v)
    ensures StopInv(v)
  {
    SentAnswer(w, o, v);
    forall acks: Acks | Sound(acks, w) ensures Sound(acks, v) {
      SentSound(acks, w, o, v);
    }
    EndingFrame(w, SendStop(o), v);
  }

  lemma StoppedFits(w: World, v: World)
    requires StopInv(w) && PlanInv(w) && Ending(w, Stopped) == Some(v)
    ensures JobFits(v.cr, v.job) && AbortedFits(v.cr, v.aborted) && EntriesPast(v.hub, v.serial)
    ensures v == w.(job := v.job, hub := v.hub)
  {
  }

  lemma StoppedHolds(w: World, v: World)
    requires StopInv(w) && PlanInv(w) && Ending(w, Stopped) == Some(v)
    requires forall acks: Acks :: Sound(acks, w) ==> Sound(acks, v)
    requires v == w.(job := v.job, hub := v.hub)
    ensures JobHolds(v) && StoreHolds(v)
  {
    assert w.plan.roster[..w.job.next] == w.plan.roster;
    assert v.job.Saving? || v.job.Releasing? ==> v.job.acks.None? || v.job.acks.value == w.job.answers;
  }

  lemma StopStopped(w: World, v: World)
    requires StopInv(w) && PlanInv(w) && Ending(w, Stopped) == Some(v)
    ensures StopInv(v)
  {
    forall acks: Acks | Sound(acks, w) ensures Sound(acks, v) {
      StoppedSound(acks, w, v);
    }
    StoppedSound(map[], w, v);
    StoppedFits(w, v);
    StoppedHolds(w, v);
  }

  lemma StopEnding(w: World, a: JobAction, v: World)
    requires StopInv(w) && PlanInv(w) && Ending(w, a) == Some(v)
    ensures StopInv(v)
  {
    if a.SendStop? {
      StopSend(w, a.outcome, v);
    } else if a.Stopped? {
      StopStopped(w, v);
    } else {
      assert v == w.(cr := v.cr, aborted := v.aborted, job := v.job);
      assert forall acks: Acks :: Sound(acks, w) ==> Sound(acks, v);
    }
  }

  lemma StepKeepsStop(w: World, a: Action, v: World)
    requires StopInv(w) && PlanInv(w) && Do(w, a) == Some(v)
    ensures StopInv(v)
  {
    match a
    case ByUser(u) => StopUser(w, u, v);
    case ByJob(j) =>
      if Open(w, j) == Some(v) {
        StopOpen(w, j, v);
      } else if Prepare(w, j) == Some(v) {
        StopPrepare(w, j, v);
      } else if Launching(w, j) == Some(v) {
        StopLaunching(w, j, v);
      } else {
        StopEnding(w, j, v);
      }
    case ByHub(h) => StopRegistry(w, h, v);
    case BySpoke(s) => StopRemote(w, s, v);
    case ByList(l) => StopLists(w, l, v);
  }

  // ---------------------------------------------------------------------
  // Whole runs
  // ---------------------------------------------------------------------

  lemma NextKeepsStop(w: World, s: Step)
    requires StopInv(w) && PlanInv(w) && Next(w, s).Some?
    ensures StopInv(Next(w, s).value) && PlanInv(Next(w, s).value)
  {
    var v := Do(w, s.action).value;
    StepKeepsPlan(w, s.action, v);
    StepKeepsStop(w, s.action, v);
  }

  lemma StopHolds(steps: seq<Step>, w: World)
    requires Run(INIT, steps) == Some(w)
    ensures StopInv(w) && PlanInv(w)
  {
    forall x, s | StopInv(x) && PlanInv(x) && Next(x, s).Some?
      ensures StopInv(Next(x, s).value) && PlanInv(Next(x, s).value)
    {
      NextKeepsStop(x, s);
    }
    RunInduction(x => StopInv(x) && PlanInv(x), s => true, INIT, steps, w);
  }

  /** Aborted or otherwise finished, or gone. */
  predicate Over(w: World) {
    w.cr.Gone? || (w.cr.Present? && Terminal(w.cr.r.status.phase))
  }

  /** The answers to the STOPs that led to the Aborted phase or to the release of the finalizer. */
  ghost predicate StoppedWith(w: World, acks: Acks) {
    || (w.cr.Present? && w.cr.r.status.phase.Aborted? && w.aborted == Some(acks))
    || (w.cr.Gone? && w.cr.acks == Some(acks))
  }

  /**
   In every reachable state after an abort, or after a release through a running server: every assigned
   spoke took the STOP or was not registered. On a spoke that kept its registration, lost no STOP and had no
   START left from a replaced registration, the queue leaves no shard behind: when it is worked off in order if
   the registration never had two streams at once, and in whatever order if no START was left in it either.
   */
  lemma StopSafety(steps: seq<Step>, w: World, acks: Acks)
    requires Run(INIT, steps) == Some(w) && StoppedWith(w, acks)
    ensures forall sp :: sp in w.plan.roster <==> sp in acks
    ensures forall sp :: sp in acks ==> !acks[sp].Refused?
    ensures forall sp :: sp in acks && Kept(acks[sp], w.hub, sp, w.lost) && acks[sp].gen !in w.shared ==>
      EndsClean(w.hub.entries[sp], Live(w.shards, sp))
    ensures forall sp :: sp in acks && Kept(acks[sp], w.hub, sp, w.lost) && acks[sp].clear ==>
      EndsCleanAnyhow(w.hub.entries[sp], Live(w.shards, sp))
    ensures forall sp :: sp in acks && Kept(acks[sp], w.hub, sp, w.lost) && WorkedOff(w.hub.entries[sp]) ==>
      (acks[sp].gen !in w.shared || acks[sp].clear ==> Live(w.shards, sp) == {})
  {
    StopHolds(steps, w);
    assert Sound(acks, w) && Complete(acks, w.plan);
    forall sp | sp in acks && Kept(acks[sp], w.hub, sp, w.lost)
      ensures Cleans(acks[sp], w.hub.entries[sp], Live(w.shards, sp), w.shared)
    {
      assert Good(acks[sp], w.hub, sp, w.left, w.shards, w.lost, w.shared);
    }
    forall sp | sp in acks && Kept(acks[sp], w.hub, sp, w.lost) && WorkedOff(w.hub.entries[sp])
      ensures acks[sp].gen !in w.shared || acks[sp].clear ==> Live(w.shards, sp) == {}
    {
      WorkedOffClean(w.hub.entries[sp], Live(w.shards, sp));
    }
  }

  /** A persisted Aborted phase always has its answers. */
  lemma AbortedWasStopped(steps: seq<Step>, w: World)
    requires Run(INIT, steps) == Some(w) && w.cr.Present? && w.cr.r.status.phase.Aborted?
    ensures exists acks :: StoppedWith(w, acks)
  {
    StopHolds(steps, w);
    assert StoppedWith(w, w.aborted.value);
  }

  lemma OverJob(w: World, j: JobAction, v: World)
    requires StopInv(w) && Over(w) && Reconcile(w, j) == Some(v)
    ensures Over(v) && !j.SendStart?
  {
    if Open(w, j) == Some(v) {
      assert v.cr == w.cr || (v.cr.Present? && v.cr.r.status == w.cr.r.status);
    } else {
      assert !Ongoing(w.cr);
      assert v.cr == w.cr || v.cr.Gone?;
    }
  }

  lemma OverStaysOver(w: World, a: Action, v: World)
    requires StopInv(w) && Over(w) && Do(w, a) == Some(v)
    ensures Over(v) && !(a.ByJob? && a.job.SendStart?)
  {
    if a.ByJob? {
      OverJob(w, a.job, v);
    } else {
      if a.BySpoke? {
        RemoteFrame(w, a.spoke, v);
      } else if a.ByHub? {
        RegistryFrame(w, a.hub, v);
      }
      assert a.ByUser? || v.cr == w.cr;
    }
  }

  lemma JobKeepsSound(acks: Acks, w: World, j: JobAction, v: World)
    requires StopInv(w) && Over(w) && Reconcile(w, j) == Some(v) && Sound(acks, w)
    ensures Sound(acks, v)
  {
    OverJob(w, j, v);
    if j.SendStop? {
      SentSound(acks, w, j.outcome, v);
    } else if j.Stopped? {
      StoppedSound(acks, w, v);
    } else {
      assert v.hub == w.hub && v.left == w.left && v.shards == w.shards;
      assert v.lost == w.lost && v.shared == w.shared && v.serial == w.serial;
    }
  }

  lemma StepKeepsSound(acks: Acks, w: World, a: Action, v: World)
    requires StopInv(w) && Over(w) && Do(w, a) == Some(v) && Sound(acks, w)
    ensures Sound(acks, v)
  {
    match a
    case ByUser(u) => assert v == w.(cr := v.cr);
    case ByJob(j) => JobKeepsSound(acks, w, j, v);
    case ByHub(h) => RegistrySound(acks, w, h, v);
    case BySpoke(s) => RemoteSound(acks, w, s, v);
    case ByList(l) => ListsSound(acks, w, l, v);
  }

  ghost predicate OverInv(w: World) {
    StopInv(w) && PlanInv(w) && Over(w)
  }

  ghost predicate StartsNothing(s: Step) {
    !(s.action.ByJob? && s.action.job.SendStart?)
  }

  lemma NextKeepsOver(w: World, s: Step)
    requires OverInv(w) && Next(w, s).Some?
    ensures OverInv(Next(w, s).value) && StartsNothing(s)
  {
    NextKeepsStop(w, s);
    OverStaysOver(w, s.action, Do(w, s.action).value);
  }

  /** From then on no START is queued. */
  lemma OverForever(w: World, steps: seq<Step>, v: World)
    requires OverInv(w) && Run(w, steps) == Some(v)
    ensures OverInv(v)
    ensures forall i :: 0 <= i < |steps| ==> StartsNothing(steps[i])
  {
    forall x, s | OverInv(x) && Next(x, s).Some? ensures OverInv(Next(x, s).value) && StartsNothing(s) {
      NextKeepsOver(x, s);
    }
    RunInduction(x => OverInv(x), s => StartsNothing(s), w, steps, v);
    assert forall i :: 0 <= i < |steps| ==> StartsNothing(steps[i]);
  }

  lemma NextKeepsSound(acks: Acks, w: World, s: Step)
    requires OverInv(w) && Sound(acks, w) && Next(w, s).Some?
    ensures Sound(acks, Next(w, s).value)
  {
    StepKeepsSound(acks, w, s.action, Do(w, s.action).value);
  }

  /** And sound answers stay sound. */
  lemma SoundForever(acks: Acks, w: World, steps: seq<Step>, v: World)
    requires OverInv(w) && Sound(acks, w) && Run(w, steps) == Some(v)
    ensures Sound(acks, v)
  {
    forall x, s | OverInv(x) && Sound(acks, x) && Next(x, s).Some?
      ensures OverInv(Next(x, s).value) && Sound(acks, Next(x, s).value)
    {
      NextKeepsOver(x, s);
      NextKeepsSound(acks, x, s);
    }
    RunInduction(x => OverInv(x) && Sound(acks, x), s => true, w, steps, v);
  }
}
