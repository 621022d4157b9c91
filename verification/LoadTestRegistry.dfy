/**
 The registry behind the protocol: what the hub's server keeps for all load tests, seen from one of them, is
 the hub of the protocol, and every operation of the server is a step, or a run, of the protocol.

 The server keys reports by a string made of the load test and the name of the replay; the protocol keys
 them by shard index. That the two agree rests on the names: a shard's name and its key determine it.
 */
module LoadTestRegistry {
  import opened Options
  import opened LoadTest
  import H = HubServer

  // ---------------------------------------------------------------------
  // Reports
  // ---------------------------------------------------------------------

  function PhaseOf(p: H.ReplayPhase): ShardPhase {
    match p
    case Unspecified => Waiting
    case Pending => Waiting
    case Running => Active
    case Completed => Done
    case Failed => Broken
  }

  predicate Ours(id: H.LoadTestKey, s: H.ReplaySummary) {
    H.BelongsTo(s, id.namespace, id.name)
  }

  /** Names without a slash, and a shard of this load test under the name that its index gives it. */
  predicate WellNamed(id: H.LoadTestKey, s: H.ReplaySummary) {
    && '/' !in s.namespace && '/' !in s.loadTest
    && (Ours(id, s) ==> s.index >= 0 && s.replay == H.ReplayShardName(id.name, s.index))
  }

  ghost predicate Named(id: H.LoadTestKey, m: map<string, H.ReplaySummary>) {
    H.Keyed(m) && forall k :: k in m ==> WellNamed(id, m[k])
  }

  /** The key under which a shard of the load test is reported. */
  function ShardKey(id: H.LoadTestKey, i: nat): string {
    id.namespace + "/" + id.name + "/" + H.ReplayShardName(id.name, i)
  }

  lemma OursHasShardKey(id: H.LoadTestKey, s: H.ReplaySummary)
    requires WellNamed(id, s) && Ours(id, s)
    ensures H.ReplayKey(s) == ShardKey(id, s.index)
  {
  }

  /** A key tells whether the report is about the load test, and about which of its shards. */
  lemma KeyTells(id: H.LoadTestKey, s: H.ReplaySummary, i: nat)
    requires WellNamed(id, s) && '/' !in id.namespace && '/' !in id.name && H.ReplayKey(s) == ShardKey(id, i)
    ensures Ours(id, s) && s.index == i
  {
    var t := H.ReplaySummary(id.namespace, id.name, H.ReplayShardName(id.name, i), i, H.Unspecified);
    H.ReplayKeyInjective(s, t);
    H.ReplayShardNameInjective(id.name, s.index, id.name, i);
  }

  ghost function Indexes(id: H.LoadTestKey, m: map<string, H.ReplaySummary>): set<nat>
    requires Named(id, m)
  {
    set k | k in m && Ours(id, m[k]) :: m[k].index
  }

  lemma IndexReported(id: H.LoadTestKey, m: map<string, H.ReplaySummary>, i: nat)
    requires Named(id, m) && '/' !in id.namespace && '/' !in id.name
    ensures i in Indexes(id, m) <==> ShardKey(id, i) in m
    ensures ShardKey(id, i) in m ==> Ours(id, m[ShardKey(id, i)]) && m[ShardKey(id, i)].index == i
  {
    if i in Indexes(id, m) {
      var k :| k in m && Ours(id, m[k]) && m[k].index == i;
      OursHasShardKey(id, m[k]);
    }
    if ShardKey(id, i) in m {
      KeyTells(id, m[ShardKey(id, i)], i);
    }
  }

  /** The reports on the load test by shard index, as the protocol has them. */
  ghost function Phases(id: H.LoadTestKey, m: map<string, H.ReplaySummary>): map<nat, ShardPhase>
    requires Named(id, m)
  {
    map i: nat | i in Indexes(id, m) && ShardKey(id, i) in m :: PhaseOf(m[ShardKey(id, i)].phase)
  }

  ghost predicate Plain(id: H.LoadTestKey) {
    '/' !in id.namespace && '/' !in id.name
  }

  lemma PhasesAt(id: H.LoadTestKey, m: map<string, H.ReplaySummary>, i: nat)
    requires Named(id, m) && Plain(id)
    ensures i in Phases(id, m) <==> ShardKey(id, i) in m
    ensures i in Phases(id, m) ==> Phases(id, m)[i] == PhaseOf(m[ShardKey(id, i)].phase)
  {
    IndexReported(id, m, i);
  }

  lemma StaysNamed(id: H.LoadTestKey, m: map<string, H.ReplaySummary>, s: H.ReplaySummary)
    requires Named(id, m) && WellNamed(id, s)
    ensures Named(id, m[H.ReplayKey(s) := s])
  {
  }

  lemma PhaseReported(id: H.LoadTestKey, m: map<string, H.ReplaySummary>, s: H.ReplaySummary, i: nat)
    requires Named(id, m) && Plain(id) && WellNamed(id, s) && Named(id, m[H.ReplayKey(s) := s])
    ensures var after := Phases(id, m[H.ReplayKey(s) := s]);
            if Ours(id, s) && s.index == i then i in after && after[i] == PhaseOf(s.phase)
            else (i in after <==> i in Phases(id, m)) && (i in after ==> after[i] == Phases(id, m)[i])
  {
    PhasesAt(id, m, i);
    PhasesAt(id, m[H.ReplayKey(s) := s], i);
    if ShardKey(id, i) == H.ReplayKey(s) {
      KeyTells(id, s, i);
    } else if Ours(id, s) {
      OursHasShardKey(id, s);
    }
  }

  /** One report changes the phase of its shard, and only if it is about this load test. */
  lemma PhasesReported(id: H.LoadTestKey, m: map<string, H.ReplaySummary>, s: H.ReplaySummary)
    requires Named(id, m) && Plain(id) && WellNamed(id, s)
    ensures Named(id, m[H.ReplayKey(s) := s])
    ensures Phases(id, m[H.ReplayKey(s) := s])
         == if Ours(id, s) then Phases(id, m)[s.index := PhaseOf(s.phase)] else Phases(id, m)
  {
    StaysNamed(id, m, s);
    var before, after := Phases(id, m), Phases(id, m[H.ReplayKey(s) := s]);
    var index, phase := if Ours(id, s) then s.index else -1, PhaseOf(s.phase);
    forall i: nat
      ensures if i == index then i in after && after[i] == phase
              else (i in after <==> i in before) && (i in after ==> after[i] == before[i])
    {
      PhaseReported(id, m, s, i);
    }
    OneChanged(before, after, index, phase);
  }

  lemma OneChanged<V>(before: map<nat, V>, after: map<nat, V>, index: int, v: V)
    requires forall i: nat :: if i == index then i in after && after[i] == v
                              else (i in after <==> i in before) && (i in after ==> after[i] == before[i])
    ensures after == if index >= 0 then before[index := v] else before
  {
  }

  lemma PhaseCleared(id: H.LoadTestKey, m: map<string, H.ReplaySummary>, other: H.LoadTestKey, i: nat)
    requires Named(id, m) && Plain(id) && Named(id, H.Without(m, other.namespace, other.name))
    ensures var after := Phases(id, H.Without(m, other.namespace, other.name));
            && (i in after <==> other != id && i in Phases(id, m))
            && (i in after ==> after[i] == Phases(id, m)[i])
  {
    PhasesAt(id, m, i);
    PhasesAt(id, H.Without(m, other.namespace, other.name), i);
    IndexReported(id, m, i);
  }

  /** Clearing drops the reports on the load test, and leaves those on any other. */
  lemma PhasesCleared(id: H.LoadTestKey, m: map<string, H.ReplaySummary>, other: H.LoadTestKey)
    requires Named(id, m) && Plain(id)
    ensures Named(id, H.Without(m, other.namespace, other.name))
    ensures Phases(id, H.Without(m, other.namespace, other.name)) == if other == id then map[] else Phases(id, m)
  {
    var after := Phases(id, H.Without(m, other.namespace, other.name));
    forall i: nat
      ensures i in after <==> other != id && i in Phases(id, m)
      ensures i in after ==> after[i] == Phases(id, m)[i]
    {
      PhaseCleared(id, m, other, i);
    }
  }

  // ---------------------------------------------------------------------
  // The server's state and the protocol's
  // ---------------------------------------------------------------------

  /** What a server holds; `owners[n]` is the spoke that made registration n. */
  datatype State = State(spokes: map<string, H.Entry>, channels: map<nat, H.Channel>, owners: seq<Spoke>)

  /** How a registration and its channel appear in the protocol, and how a replaced channel does. */
  datatype Lens = Lens(entry: (H.Entry, H.Channel, Entry) -> bool, rest: (H.Channel, Leftover) -> bool)

  /** The first registration of a server carries this number in the protocol. */
  function Base(hub: Hub): nat
    requires hub.Up?
  {
    hub.epoch + 1
  }

  ghost predicate OwnedBy(s: State, d: int, sp: Spoke) {
    0 <= d < |s.owners| && s.owners[d] == sp && d in s.channels
  }

  ghost predicate SpokeShown(lens: Lens, s: State, sp: Spoke, f: Entry, base: nat) {
    && sp in s.spokes && OwnedBy(s, s.spokes[sp].done, sp) && f.gen == base + s.spokes[sp].done
    && lens.entry(s.spokes[sp], s.channels[s.spokes[sp].done], f)
  }

  ghost predicate EntriesShown(lens: Lens, s: State, entries: map<Spoke, Entry>, base: nat) {
    s.spokes.Keys == entries.Keys && forall sp :: sp in s.spokes ==> SpokeShown(lens, s, sp, entries[sp], base)
  }

  ghost predicate RestShown(lens: Lens, s: State, k: (Spoke, nat), l: Leftover, base: nat) {
    && OwnedBy(s, k.1 - base, k.0) && !(k.0 in s.spokes && s.spokes[k.0].done == k.1 - base)
    && lens.rest(s.channels[k.1 - base], l)
  }

  ghost predicate StaleShown(lens: Lens, s: State, stale: map<(Spoke, nat), Leftover>, base: nat) {
    forall k :: k in stale && k.1 >= base ==> RestShown(lens, s, k, stale[k], base)
  }

  ghost predicate Sized(s: State, serial: nat, base: nat) {
    serial == base + |s.owners| && forall d: nat :: d in s.channels <==> d < |s.owners|
  }

  ghost predicate HubShown(lens: Lens, s: State, hub: Hub, stale: map<(Spoke, nat), Leftover>, serial: nat) {
    && hub.Up? && Sized(s, serial, Base(hub))
    && EntriesShown(lens, s, hub.entries, Base(hub)) && StaleShown(lens, s, stale, Base(hub))
  }

  /** The server's state, seen through the lens, is the hub of the protocol. */
  ghost predicate Shows(lens: Lens, s: State, w: World) {
    HubShown(lens, s, w.hub, w.left.stale, w.serial)
  }

  // ---------------------------------------------------------------------
  // Registering
  // ---------------------------------------------------------------------

  function AfterRegister(s: State, sp: Spoke, e: H.Entry, capacity: nat): State {
    State(s.spokes[sp := e], s.channels[|s.owners| := H.Channel(capacity, [])], s.owners + [sp])
  }

  function Without(s: State, sp: Spoke): State {
    s.(spokes := s.spokes - {sp})
  }

  lemma EntriesRegistered(lens: Lens, s: State, entries: map<Spoke, Entry>, base: nat, sp: Spoke, e: H.Entry,
                          capacity: nat)
    requires EntriesShown(lens, s, entries, base) && e.done == |s.owners|
    requires lens.entry(e, H.Channel(capacity, []), Fresh(base + |s.owners|, capacity))
    ensures var f := Fresh(base + |s.owners|, capacity);
            EntriesShown(lens, AfterRegister(s, sp, e, capacity), entries[sp := f], base)
  {
    var t := AfterRegister(s, sp, e, capacity);
    forall x | x in s.spokes && x != sp ensures SpokeShown(lens, t, x, entries[x], base) {
      assert SpokeShown(lens, s, x, entries[x], base);
    }
  }

  lemma StaleRetired(lens: Lens, s: State, left: Left, base: nat, sp: Spoke, e: Entry)
    requires StaleShown(lens, s, left.stale, base) && SpokeShown(lens, s, sp, e, base)
    requires lens.rest(s.channels[s.spokes[sp].done], Leftover(e.capacity, e.buffer))
    ensures StaleShown(lens, Without(s, sp), Retire(left, sp, e).stale, base)
  {
    var stale := Retire(left, sp, e).stale;
    forall k | k in stale && k.1 >= base ensures RestShown(lens, Without(s, sp), k, stale[k], base) {
      assert k in left.stale && stale[k] == left.stale[k] ==> RestShown(lens, s, k, left.stale[k], base);
    }
  }

  lemma StaleRegistered(lens: Lens, s: State, stale: map<(Spoke, nat), Leftover>, base: nat, sp: Spoke, e: H.Entry,
                        capacity: nat)
    requires StaleShown(lens, Without(s, sp), stale, base) && e.done == |s.owners|
    ensures StaleShown(lens, AfterRegister(s, sp, e, capacity), stale, base)
  {
    var t := AfterRegister(s, sp, e, capacity);
    forall k | k in stale && k.1 >= base ensures RestShown(lens, t, k, stale[k], base) {
      assert RestShown(lens, Without(s, sp), k, stale[k], base);
    }
  }

  lemma SizedRegistered(s: State, serial: nat, base: nat, sp: Spoke, e: H.Entry, capacity: nat)
    requires Sized(s, serial, base)
    ensures Sized(AfterRegister(s, sp, e, capacity), serial + 1, base)
  {
  }

  /** What is shown as a registration is shown as a replaced one when it is replaced. */
  ghost predicate Coherent(lens: Lens) {
    forall e, c, f :: lens.entry(e, c, f) ==> lens.rest(c, Leftover(f.capacity, f.buffer))
  }

  /** Deregistering is the protocol's step. */
  lemma DeregisterShown(lens: Lens, s: State, w: World, sp: Spoke)
    requires Shows(lens, s, w) && Coherent(lens) && sp in s.spokes
    ensures Registry(w, Deregister(sp)).Some? && Shows(lens, Without(s, sp), Registry(w, Deregister(sp)).value)
  {
    var entries, base := w.hub.entries, Base(w.hub);
    assert SpokeShown(lens, s, sp, entries[sp], base);
    StaleRetired(lens, s, w.left, base, sp, entries[sp]);
    forall x | x in s.spokes && x != sp ensures SpokeShown(lens, Without(s, sp), x, entries[x], base) {
      assert SpokeShown(lens, s, x, entries[x], base);
    }
  }

  lemma StaleReplaced(lens: Lens, s: State, w: World, sp: Spoke)
    requires Shows(lens, s, w) && Coherent(lens)
    ensures StaleShown(lens, Without(s, sp), Retired(w, sp).stale, Base(w.hub))
  {
    if sp in s.spokes {
      assert SpokeShown(lens, s, sp, w.hub.entries[sp], Base(w.hub));
      StaleRetired(lens, s, w.left, Base(w.hub), sp, w.hub.entries[sp]);
    } else {
      assert Without(s, sp) == s;
    }
  }

  /** So is registering, whether or not the spoke was registered before. */
  lemma RegisterShown(lens: Lens, s: State, w: World, sp: Spoke, e: H.Entry, capacity: nat)
    requires Shows(lens, s, w) && Coherent(lens) && e.done == |s.owners|
    requires lens.entry(e, H.Channel(capacity, []), Fresh(w.serial, capacity))
    ensures Registry(w, Register(sp, capacity)).Some?
    ensures Shows(lens, AfterRegister(s, sp, e, capacity), Registry(w, Register(sp, capacity)).value)
  {
    EntriesRegistered(lens, s, w.hub.entries, Base(w.hub), sp, e, capacity);
    SizedRegistered(s, w.serial, Base(w.hub), sp, e, capacity);
    StaleReplaced(lens, s, w, sp);
    StaleRegistered(lens, s, Retired(w, sp).stale, Base(w.hub), sp, e, capacity);
  }

  // ---------------------------------------------------------------------
  // Queueing and taking directives
  // ---------------------------------------------------------------------

  /** Capacities and lengths are shown as they are. */
  ghost predicate Measures(lens: Lens) {
    && (forall e, c, f :: lens.entry(e, c, f) ==> f.capacity == c.capacity && |f.buffer| == |c.items|)
    && (forall c, l :: lens.rest(c, l) ==> l.capacity == c.capacity && |l.queue| == |c.items|)
  }

  /** The look-up gives the same registration, under its number in the protocol. */
  lemma LookUpShown(lens: Lens, s: State, w: World, sp: Spoke)
    requires Shows(lens, s, w)
    ensures LookedUp(w, Handle(w.hub.epoch), sp)
         == if sp in s.spokes then Found(Base(w.hub) + s.spokes[sp].done) else Nobody
    ensures sp in s.spokes ==> OwnedBy(s, s.spokes[sp].done, sp)
  {
    if sp in s.spokes {
      assert SpokeShown(lens, s, sp, w.hub.entries[sp], Base(w.hub));
    }
  }

  /** A look-up stays good: the registration it found is the spoke's for good, replaced or not. */
  lemma OwnershipStays(s: State, t: State, d: nat, sp: Spoke)
    requires OwnedBy(s, d, sp) && s.owners <= t.owners && s.channels.Keys <= t.channels.Keys
    ensures OwnedBy(t, d, sp)
  {
  }

  function WithChannel(s: State, d: nat, c: H.Channel): State {
    s.(channels := s.channels[d := c])
  }

  lemma PresentEntries(lens: Lens, s: State, entries: map<Spoke, Entry>, base: nat, sp: Spoke, c: H.Channel, f: Entry)
    requires EntriesShown(lens, s, entries, base) && sp in s.spokes && f.gen == entries[sp].gen
    requires lens.entry(s.spokes[sp], c, f)
    ensures EntriesShown(lens, WithChannel(s, s.spokes[sp].done, c), entries[sp := f], base)
  {
    var t := WithChannel(s, s.spokes[sp].done, c);
    assert SpokeShown(lens, s, sp, entries[sp], base);
    forall x | x in s.spokes && x != sp ensures SpokeShown(lens, t, x, entries[x], base) {
      assert SpokeShown(lens, s, x, entries[x], base);
    }
  }

  lemma PresentStale(lens: Lens, s: State, stale: map<(Spoke, nat), Leftover>, base: nat, sp: Spoke, c: H.Channel)
    requires StaleShown(lens, s, stale, base) && sp in s.spokes && OwnedBy(s, s.spokes[sp].done, sp)
    ensures StaleShown(lens, WithChannel(s, s.spokes[sp].done, c), stale, base)
  {
    var t := WithChannel(s, s.spokes[sp].done, c);
    forall k | k in stale && k.1 >= base ensures RestShown(lens, t, k, stale[k], base) {
      assert RestShown(lens, s, k, stale[k], base);
    }
  }

  /** Another content in the channel of a present registration. */
  lemma PresentChanged(lens: Lens, s: State, w: World, sp: Spoke, c: H.Channel, f: Entry)
    requires Shows(lens, s, w) && sp in s.spokes && f.gen == w.hub.entries[sp].gen && lens.entry(s.spokes[sp], c, f)
    ensures Shows(lens, WithChannel(s, s.spokes[sp].done, c), w.(hub := Update(w, sp, f)))
  {
    assert SpokeShown(lens, s, sp, w.hub.entries[sp], Base(w.hub));
    PresentEntries(lens, s, w.hub.entries, Base(w.hub), sp, c, f);
    PresentStale(lens, s, w.left.stale, Base(w.hub), sp, c);
  }

  /** Another content in the channel of a replaced registration. */
  lemma ReplacedChanged(lens: Lens, s: State, w: World, sp: Spoke, d: nat, c: H.Channel, left: Left)
    requires Shows(lens, s, w) && OwnedBy(s, d, sp) && !(sp in s.spokes && s.spokes[sp].done == d)
    requires left.stale.Keys == w.left.stale.Keys
    requires forall k :: k in left.stale && k != (sp, Base(w.hub) + d) ==> left.stale[k] == w.left.stale[k]
    requires (sp, Base(w.hub) + d) in left.stale ==> lens.rest(c, left.stale[(sp, Base(w.hub) + d)])
    ensures Shows(lens, WithChannel(s, d, c), w.(left := left))
  {
    var entries, base, t := w.hub.entries, Base(w.hub), WithChannel(s, d, c);
    forall x | x in s.spokes ensures SpokeShown(lens, t, x, entries[x], base) {
      assert SpokeShown(lens, s, x, entries[x], base);
    }
    forall k | k in left.stale && k.1 >= base ensures RestShown(lens, t, k, left.stale[k], base) {
      assert RestShown(lens, s, k, w.left.stale[k], base);
    }
  }

  /** What a directive of the server is to the load test. */
  ghost predicate Carries(lens: Lens, x: H.Directive, d: Directive) {
    && (forall e, c, f :: lens.entry(e, c, f) ==> lens.entry(e, H.Sent(c, x), f.(buffer := f.buffer + [d])))
    && (forall c, l :: lens.rest(c, l) ==> lens.rest(H.Sent(c, x), l.(queue := l.queue + [d])))
  }

  function OutcomeOf(w: World, sp: Spoke, gen: nat, ok: bool): Outcome {
    if !ok then BufferFull else if IsPresent(w.hub, sp, gen) then Queued else Misrouted
  }

  /** The attempt to queue is the protocol's step, with the same answer. */
  ghost predicate SendMatches(lens: Lens, s: State, w: World, sp: Spoke, done: nat, x: H.Directive, d: Directive)
    requires w.hub.Up? && done in s.channels
  {
    var c, gen := s.channels[done], Base(w.hub) + done;
    var ok := |c.items| < c.capacity;
    var v := Send(w, sp, Found(gen), d, OutcomeOf(w, sp, gen, ok));
    v.Some? && Shows(lens, if ok then WithChannel(s, done, H.Sent(c, x)) else s, v.value)
  }

  lemma SendPresentShown(lens: Lens, s: State, w: World, sp: Spoke, x: H.Directive, d: Directive)
    requires Shows(lens, s, w) && Measures(lens) && Carries(lens, x, d) && sp in s.spokes
    requires OwnedBy(s, s.spokes[sp].done, sp)
    ensures SendMatches(lens, s, w, sp, s.spokes[sp].done, x, d)
  {
    var c, f := s.channels[s.spokes[sp].done], w.hub.entries[sp];
    assert SpokeShown(lens, s, sp, f, Base(w.hub));
    assert lens.entry(s.spokes[sp], c, f) && f.capacity == c.capacity && |f.buffer| == |c.items|;
    if |c.items| < c.capacity {
      PresentChanged(lens, s, w, sp, H.Sent(c, x), f.(buffer := f.buffer + [d]));
    }
  }

  lemma NotPresent(lens: Lens, s: State, hub: Hub, sp: Spoke, done: nat)
    requires hub.Up? && EntriesShown(lens, s, hub.entries, Base(hub)) && !(sp in s.spokes && s.spokes[sp].done == done)
    ensures !IsPresent(hub, sp, Base(hub) + done)
  {
    if sp in s.spokes {
      assert SpokeShown(lens, s, sp, hub.entries[sp], Base(hub));
    }
  }

  /** A replaced queue that still has its watcher is as full as its channel. */
  lemma StaleFits(lens: Lens, s: State, left: Left, base: nat, sp: Spoke, done: nat)
    requires StaleShown(lens, s, left.stale, base) && Measures(lens) && done in s.channels
    ensures (sp, base + done) in left.stale ==>
      (StaleFull(left, sp, base + done) <==> |s.channels[done].items| >= s.channels[done].capacity)
  {
    if (sp, base + done) in left.stale {
      assert RestShown(lens, s, (sp, base + done), left.stale[(sp, base + done)], base);
    }
  }

  lemma MisplaceShown(lens: Lens, s: State, w: World, sp: Spoke, done: nat, x: H.Directive, d: Directive)
    requires Shows(lens, s, w) && Carries(lens, x, d) && OwnedBy(s, done, sp)
    requires !(sp in s.spokes && s.spokes[sp].done == done)
    ensures var left := Misplace(w.left, sp, Base(w.hub) + done, d);
            Shows(lens, WithChannel(s, done, H.Sent(s.channels[done], x)), w.(left := left))
  {
    var k := (sp, Base(w.hub) + done);
    if k in w.left.stale {
      assert RestShown(lens, s, k, w.left.stale[k], Base(w.hub));
    }
    ReplacedChanged(lens, s, w, sp, done, H.Sent(s.channels[done], x), Misplace(w.left, sp, k.1, d));
  }

  lemma SendReplaced(w: World, sp: Spoke, gen: nat, d: Directive, ok: bool)
    requires !IsPresent(w.hub, sp, gen) && ((sp, gen) in w.left.stale ==> (StaleFull(w.left, sp, gen) <==> !ok))
    ensures Send(w, sp, Found(gen), d, OutcomeOf(w, sp, gen, ok))
         == Some(if ok then w.(left := Misplace(w.left, sp, gen, d)) else w)
  {
  }

  lemma SendReplacedShown(lens: Lens, s: State, w: World, sp: Spoke, done: nat, x: H.Directive, d: Directive)
    requires Shows(lens, s, w) && Measures(lens) && Carries(lens, x, d) && OwnedBy(s, done, sp)
    requires !(sp in s.spokes && s.spokes[sp].done == done)
    ensures SendMatches(lens, s, w, sp, done, x, d)
  {
    NotPresent(lens, s, w.hub, sp, done);
    StaleFits(lens, s, w.left, Base(w.hub), sp, done);
    var ok := |s.channels[done].items| < s.channels[done].capacity;
    SendReplaced(w, sp, Base(w.hub) + done, d, ok);
    if ok {
      MisplaceShown(lens, s, w, sp, done, x, d);
    }
  }

  /** The attempt to queue after a look-up is the protocol's step, with the same answer, whatever became of
      the registration in between. */
  lemma SendShown(lens: Lens, s: State, w: World, sp: Spoke, done: nat, x: H.Directive, d: Directive)
    requires Shows(lens, s, w) && Measures(lens) && Carries(lens, x, d) && OwnedBy(s, done, sp)
    ensures SendMatches(lens, s, w, sp, done, x, d)
  {
    if sp in s.spokes && s.spokes[sp].done == done {
      SendPresentShown(lens, s, w, sp, x, d);
    } else {
      SendReplacedShown(lens, s, w, sp, done, x, d);
    }
  }

  function Tail(c: H.Channel): H.Channel
    requires c.items != []
  {
    c.(items := c.items[1..])
  }

  /** The lens shows channels from the front to the back. */
  ghost predicate InOrder(lens: Lens) {
    && (forall e, c, f :: lens.entry(e, c, f) && c.items != [] && f.buffer != [] ==>
          lens.entry(e, Tail(c), f.(buffer := f.buffer[1..])))
    && (forall c, l :: lens.rest(c, l) && c.items != [] && l.queue != [] ==>
          lens.rest(Tail(c), l.(queue := l.queue[1..])))
  }

  /** The lens does not look at the streams of a registration, nor at what else the server knows of it. */
  ghost predicate Indifferent(lens: Lens) {
    && (forall e, c, f, streams :: lens.entry(e, c, f) ==> lens.entry(e, c, Streaming(f, streams)))
    && (forall e, g: H.Entry, c, f :: lens.entry(e, c, f) && SameReplays(e, g) ==> lens.entry(g, c, f))
  }

  function Streaming(f: Entry, streams: Streams): Entry {
    f.(streams := streams)
  }

  predicate SameReplays(e: H.Entry, g: H.Entry) {
    e.replays == g.replays
  }

  /** Taking the first directive of the channel is this step of the protocol. */
  ghost predicate TakeMatches(lens: Lens, s: State, w: World, sp: Spoke, done: nat, a: SpokeAction)
    requires done in s.channels && s.channels[done].items != []
  {
    var v := Do(w, BySpoke(a));
    v.Some? && Shows(lens, WithChannel(s, done, Tail(s.channels[done])), v.value)
  }

  lemma TakePresentShown(lens: Lens, s: State, w: World, sp: Spoke, id: nat)
    requires Shows(lens, s, w) && Measures(lens) && InOrder(lens) && Indifferent(lens)
    requires sp in s.spokes && OwnedBy(s, s.spokes[sp].done, sp) && HasStream(w, sp, id)
    requires s.channels[s.spokes[sp].done].items != []
    ensures TakeMatches(lens, s, w, sp, s.spokes[sp].done, Pop(sp, id))
  {
    var c, f := s.channels[s.spokes[sp].done], w.hub.entries[sp];
    assert SpokeShown(lens, s, sp, f, Base(w.hub)) && lens.entry(s.spokes[sp], c, f);
    var g := f.(buffer := f.buffer[1..]);
    var streams := f.streams[id := f.streams[id] + [f.buffer[0]]];
    assert lens.entry(s.spokes[sp], Tail(c), Streaming(g, streams));
    PresentChanged(lens, s, w, sp, Tail(c), Streaming(g, streams));
  }

  lemma TakeReplacedShown(lens: Lens, s: State, w: World, sp: Spoke, done: nat)
    requires Shows(lens, s, w) && Measures(lens) && InOrder(lens) && OwnedBy(s, done, sp)
    requires s.channels[done].items != [] && (sp, Base(w.hub) + done) in w.left.stale
    ensures TakeMatches(lens, s, w, sp, done, StaleSends(sp, Base(w.hub) + done))
  {
    var c, k := s.channels[done], (sp, Base(w.hub) + done);
    assert RestShown(lens, s, k, w.left.stale[k], Base(w.hub));
    ReplacedChanged(lens, s, w, sp, done, Tail(c), LateStream(w, StaleSends(sp, k.1)).value.left);
  }

  /** Opening or closing a stream of the present registration: the server's state stays. */
  lemma StreamsShown(lens: Lens, s: State, w: World, sp: Spoke, streams: Streams)
    requires Shows(lens, s, w) && Indifferent(lens) && sp in s.spokes
    ensures Shows(lens, s, w.(hub := Update(w, sp, Streaming(w.hub.entries[sp], streams))))
  {
    var f, done := w.hub.entries[sp], s.spokes[sp].done;
    assert SpokeShown(lens, s, sp, f, Base(w.hub)) && lens.entry(s.spokes[sp], s.channels[done], f);
    PresentChanged(lens, s, w, sp, s.channels[done], Streaming(f, streams));
    assert WithChannel(s, done, s.channels[done]) == s by { assert s.channels[done := s.channels[done]] == s.channels; }
  }

  /** Opening a stream is the protocol's step. */
  lemma WatchShown(lens: Lens, s: State, w: World, sp: Spoke, id: nat)
    requires Shows(lens, s, w) && Indifferent(lens) && sp in s.spokes && !HasStream(w, sp, id)
    ensures var v := Do(w, BySpoke(Watch(sp, id)));
            v.Some? && Shows(lens, s, v.value)
  {
    StreamsShown(lens, s, w, sp, w.hub.entries[sp].streams[id := []]);
  }

  /** The stream `id` has a watcher at the channel. */
  ghost predicate WatchedAt(s: State, w: World, sp: Spoke, done: nat, id: nat)
    requires w.hub.Up?
  {
    if sp in s.spokes && s.spokes[sp].done == done then HasStream(w, sp, id)
    else (sp, Base(w.hub) + done) in w.left.stale
  }

  function TakeAction(s: State, w: World, sp: Spoke, done: nat, id: nat): SpokeAction
    requires w.hub.Up?
  {
    if sp in s.spokes && s.spokes[sp].done == done then Pop(sp, id) else StaleSends(sp, Base(w.hub) + done)
  }

  lemma TakeShown(lens: Lens, s: State, w: World, sp: Spoke, done: nat, id: nat)
    requires Shows(lens, s, w) && Measures(lens) && InOrder(lens) && Indifferent(lens)
    requires OwnedBy(s, done, sp) && s.channels[done].items != [] && WatchedAt(s, w, sp, done, id)
    ensures TakeMatches(lens, s, w, sp, done, TakeAction(s, w, sp, done, id))
  {
    if sp in s.spokes && s.spokes[sp].done == done {
      TakePresentShown(lens, s, w, sp, id);
    } else {
      TakeReplacedShown(lens, s, w, sp, done);
    }
  }

  // ---------------------------------------------------------------------
  // One load test's view of the server
  // ---------------------------------------------------------------------

  /** The queued directives, as `read` makes them out: those of other load tests and of captures are Other. */
  function Items(read: H.Directive -> Directive, items: seq<H.Directive>): seq<Directive> {
    seq(|items|, i requires 0 <= i < |items| => read(items[i]))
  }

  ghost predicate EntryShown(id: H.LoadTestKey, read: H.Directive -> Directive, e: H.Entry, c: H.Channel, f: Entry) {
    && f.capacity == c.capacity && f.buffer == Items(read, c.items)
    && Named(id, e.replays) && f.replays == Phases(id, e.replays)
  }

  ghost function Through(id: H.LoadTestKey, read: H.Directive -> Directive): Lens {
    Lens((e: H.Entry, c: H.Channel, f: Entry) => EntryShown(id, read, e, c, f),
         (c: H.Channel, l: Leftover) => l == Leftover(c.capacity, Items(read, c.items)))
  }

  lemma ItemsSent(read: H.Directive -> Directive, c: H.Channel, x: H.Directive)
    ensures Items(read, H.Sent(c, x).items) == Items(read, c.items) + [read(x)]
  {
  }

  lemma ItemsTail(read: H.Directive -> Directive, c: H.Channel)
    ensures |Items(read, c.items)| == |c.items|
    ensures c.items != [] ==> Items(read, Tail(c).items) == Items(read, c.items)[1..]
  {
  }

  lemma ThroughFits(id: H.LoadTestKey, read: H.Directive -> Directive)
    ensures Coherent(Through(id, read)) && Measures(Through(id, read)) && InOrder(Through(id, read))
    ensures Indifferent(Through(id, read))
  {
    forall c: H.Channel
      ensures |Items(read, c.items)| == |c.items|
      ensures c.items != [] ==> Items(read, Tail(c).items) == Items(read, c.items)[1..]
    {
      ItemsTail(read, c);
    }
  }

  lemma ThroughCarries(id: H.LoadTestKey, read: H.Directive -> Directive, x: H.Directive)
    ensures Carries(Through(id, read), x, read(x))
  {
    forall c: H.Channel ensures Items(read, H.Sent(c, x).items) == Items(read, c.items) + [read(x)] {
      ItemsSent(read, c, x);
    }
  }

  lemma FreshShown(id: H.LoadTestKey, read: H.Directive -> Directive, e: H.Entry, gen: nat, capacity: nat)
    requires e.replays == map[]
    ensures Through(id, read).entry(e, H.Channel(capacity, []), Fresh(gen, capacity))
  {
    assert Phases(id, e.replays) == map[] && Items(read, []) == [];
  }

  // ---------------------------------------------------------------------
  // Reporting and clearing
  // ---------------------------------------------------------------------

  function WithEntry(s: State, sp: Spoke, e: H.Entry): State {
    s.(spokes := s.spokes[sp := e])
  }

  ghost predicate SameNumbers(s: State, after: map<string, H.Entry>) {
    after.Keys == s.spokes.Keys && forall sp :: sp in after ==> after[sp].done == s.spokes[sp].done
  }

  lemma StaleStays(lens: Lens, s: State, after: map<string, H.Entry>, stale: map<(Spoke, nat), Leftover>, base: nat)
    requires StaleShown(lens, s, stale, base) && SameNumbers(s, after)
    ensures StaleShown(lens, s.(spokes := after), stale, base)
  {
    forall k | k in stale && k.1 >= base ensures RestShown(lens, s.(spokes := after), k, stale[k], base) {
      assert RestShown(lens, s, k, stale[k], base);
    }
  }

  lemma EntriesStay(lens: Lens, s: State, after: map<string, H.Entry>, entries: map<Spoke, Entry>,
                    next: map<Spoke, Entry>, base: nat)
    requires EntriesShown(lens, s, entries, base) && SameNumbers(s, after) && next.Keys == entries.Keys
    requires forall sp :: sp in next ==> next[sp].gen == entries[sp].gen
    requires forall sp :: sp in after && after[sp].done in s.channels ==>
      lens.entry(after[sp], s.channels[after[sp].done], next[sp])
    ensures EntriesShown(lens, s.(spokes := after), next, base)
  {
    forall x | x in after ensures SpokeShown(lens, s.(spokes := after), x, next[x], base) {
      assert SpokeShown(lens, s, x, entries[x], base);
    }
  }

  lemma EntriesChanged(lens: Lens, s: State, entries: map<Spoke, Entry>, base: nat, sp: Spoke, e: H.Entry, f: Entry)
    requires EntriesShown(lens, s, entries, base) && sp in s.spokes
    requires SpokeShown(lens, WithEntry(s, sp, e), sp, f, base)
    ensures EntriesShown(lens, WithEntry(s, sp, e), entries[sp := f], base)
  {
    forall x | x in s.spokes && x != sp ensures SpokeShown(lens, WithEntry(s, sp, e), x, entries[x], base) {
      assert SpokeShown(lens, s, x, entries[x], base);
    }
  }

  /** The parts of the correspondence, put together. */
  lemma Assembled(lens: Lens, s: State, t: State, epoch: nat, entries: map<Spoke, Entry>,
                  stale: map<(Spoke, nat), Leftover>, serial: nat)
    requires Sized(s, serial, epoch + 1) && t.owners == s.owners && t.channels == s.channels
    requires EntriesShown(lens, t, entries, epoch + 1) && StaleShown(lens, t, stale, epoch + 1)
    ensures HubShown(lens, t, Up(epoch, entries), stale, serial)
  {
  }

  lemma HubEntryChanged(lens: Lens, s: State, hub: Hub, stale: map<(Spoke, nat), Leftover>, serial: nat, sp: Spoke,
                        e: H.Entry, f: Entry)
    requires HubShown(lens, s, hub, stale, serial) && sp in s.spokes && e.done == s.spokes[sp].done
    requires SpokeShown(lens, WithEntry(s, sp, e), sp, f, Base(hub))
    ensures HubShown(lens, WithEntry(s, sp, e), Up(hub.epoch, hub.entries[sp := f]), stale, serial)
  {
    var t, base, entries := WithEntry(s, sp, e), Base(hub), hub.entries[sp := f];
    EntriesChanged(lens, s, hub.entries, base, sp, e, f);
    StaleStays(lens, s, s.spokes[sp := e], stale, base);
    Assembled(lens, s, t, hub.epoch, entries, stale, serial);
  }

  /** What the lens does not look at may change. */
  lemma EntryTouched(lens: Lens, s: State, hub: Hub, stale: map<(Spoke, nat), Leftover>, serial: nat, sp: Spoke,
                     e: H.Entry)
    requires HubShown(lens, s, hub, stale, serial) && Indifferent(lens) && sp in s.spokes
    requires e.done == s.spokes[sp].done && SameReplays(s.spokes[sp], e)
    ensures HubShown(lens, WithEntry(s, sp, e), hub, stale, serial)
  {
    var f := hub.entries[sp];
    assert SpokeShown(lens, s, sp, f, Base(hub));
    HubEntryChanged(lens, s, hub, stale, serial, sp, e, f);
    assert hub.entries[sp := f] == hub.entries;
  }

  /** What a report says about the load test; None when it is about another one. */
  function Said(id: H.LoadTestKey, r: H.ReplaySummary): Option<(nat, ShardPhase)> {
    if Ours(id, r) && r.index >= 0 then Some((r.index, PhaseOf(r.phase))) else None
  }

  function Heard(f: Entry, said: Option<(nat, ShardPhase)>): Entry {
    if said.None? then f else f.(replays := f.replays[said.value.0 := said.value.1])
  }

  function Recorded(e: H.Entry, r: H.ReplaySummary): H.Entry {
    e.(replays := e.replays[H.ReplayKey(r) := r])
  }

  /** The lens shows a report as what it says. */
  ghost predicate Hears(lens: Lens, r: H.ReplaySummary, said: Option<(nat, ShardPhase)>) {
    forall e, c, f :: lens.entry(e, c, f) ==> lens.entry(Recorded(e, r), c, Heard(f, said))
  }

  lemma ThroughHears(id: H.LoadTestKey, read: H.Directive -> Directive, r: H.ReplaySummary)
    requires Plain(id) && WellNamed(id, r)
    ensures Hears(Through(id, read), r, Said(id, r))
  {
    forall e: H.Entry, c, f | EntryShown(id, read, e, c, f)
      ensures EntryShown(id, read, Recorded(e, r), c, Heard(f, Said(id, r)))
    {
      PhasesReported(id, e.replays, r);
    }
  }

  /** The spoke may report it: the shard has been in that phase. */
  ghost predicate True(w: World, sp: Spoke, said: Option<(nat, ShardPhase)>) {
    said.Some? ==> Report(sp, said.value.0, said.value.1) in w.history
  }

  lemma ReportShown(lens: Lens, s: State, hub: Hub, stale: map<(Spoke, nat), Leftover>, serial: nat, sp: Spoke,
                    r: H.ReplaySummary, said: Option<(nat, ShardPhase)>)
    requires HubShown(lens, s, hub, stale, serial) && sp in s.spokes && sp in hub.entries && Hears(lens, r, said)
    ensures HubShown(lens, WithEntry(s, sp, Recorded(s.spokes[sp], r)),
                     Up(hub.epoch, hub.entries[sp := Heard(hub.entries[sp], said)]), stale, serial)
  {
    var f := hub.entries[sp];
    assert SpokeShown(lens, s, sp, f, Base(hub));
    HubEntryChanged(lens, s, hub, stale, serial, sp, Recorded(s.spokes[sp], r), Heard(f, said));
  }

  lemma ReportStep(w: World, sp: Spoke, said: (nat, ShardPhase))
    requires w.hub.Up? && sp in w.hub.entries && Report(sp, said.0, said.1) in w.history
    ensures Do(w, BySpoke(SendReport(sp, said.0, said.1)))
         == Some(w.(hub := Up(w.hub.epoch, w.hub.entries[sp := Heard(w.hub.entries[sp], Some(said))])))
  {
  }

  /** One report on the load test is one step; on another load test it is none. */
  lemma OneReportShown(lens: Lens, s: State, w: World, sp: Spoke, r: H.ReplaySummary, said: Option<(nat, ShardPhase)>)
    requires Shows(lens, s, w) && sp in s.spokes && Hears(lens, r, said) && True(w, sp, said)
    ensures said.None? ==> Shows(lens, WithEntry(s, sp, Recorded(s.spokes[sp], r)), w)
    ensures said.Some? ==>
      var v := Do(w, BySpoke(SendReport(sp, said.value.0, said.value.1)));
      v.Some? && Shows(lens, WithEntry(s, sp, Recorded(s.spokes[sp], r)), v.value) && v.value.history == w.history
  {
    ReportShown(lens, s, w.hub, w.left.stale, w.serial, sp, r, said);
    if said.Some? {
      ReportStep(w, sp, said.value);
    } else {
      assert w.hub.entries[sp := w.hub.entries[sp]] == w.hub.entries;
    }
  }

  ghost predicate IsReport(s: Step, sp: Spoke) {
    s.action.BySpoke? && s.action.spoke.SendReport? && s.action.spoke.sp == sp
  }

  ghost predicate AllReports(steps: seq<Step>, sp: Spoke) {
    forall i :: 0 <= i < |steps| ==> IsReport(steps[i], sp)
  }

  /** A step after a run. */
  lemma Later(w: World, steps: seq<Step>, u: World, a: Action, v: World)
    requires Run(w, steps) == Some(u) && Do(u, a) == Some(v)
    ensures Run(w, steps + [Step(a, 0)]) == Some(v.(now := u.now + 1))
  {
    var step := Step(a, 0);
    assert (steps + [step])[..|steps|] == steps;
    assert Stepper()(u, step) == Next(u, step);
  }

  function Merged(s: State, sp: Spoke, list: seq<H.ReplaySummary>): State
    requires sp in s.spokes
  {
    WithEntry(s, sp, s.spokes[sp].(replays := H.MergedReplays(s.spokes[sp].replays, list)))
  }

  lemma MergedSnoc(s: State, sp: Spoke, list: seq<H.ReplaySummary>)
    requires sp in s.spokes && list != []
    ensures var init := Merged(s, sp, list[..|list| - 1]);
            WithEntry(init, sp, Recorded(init.spokes[sp], list[|list| - 1])) == Merged(s, sp, list)
  {
  }

  lemma OneMore(w: World, steps: seq<Step>, u: World, sp: Spoke, said: (nat, ShardPhase))
    returns (more: seq<Step>, v: World)
    requires Run(w, steps) == Some(u) && AllReports(steps, sp)
    requires Do(u, BySpoke(SendReport(sp, said.0, said.1))).Some?
    ensures Run(w, more) == Some(v) && AllReports(more, sp)
    ensures v == Do(u, BySpoke(SendReport(sp, said.0, said.1))).value.(now := u.now + 1)
  {
    var a := BySpoke(SendReport(sp, said.0, said.1));
    Later(w, steps, u, a, Do(u, a).value);
    more, v := steps + [Step(a, 0)], Do(u, a).value.(now := u.now + 1);
  }

  /** A run that ends with a report. */
  lemma AddReport(lens: Lens, s: State, w: World, steps: seq<Step>, u: World, sp: Spoke, r: H.ReplaySummary,
                  said: Option<(nat, ShardPhase)>)
    returns (more: seq<Step>, v: World)
    requires Run(w, steps) == Some(u) && AllReports(steps, sp)
    requires Shows(lens, s, u) && sp in s.spokes && Hears(lens, r, said) && True(u, sp, said)
    ensures Run(w, more) == Some(v) && v.history == u.history
    ensures AllReports(more, sp)
    ensures Shows(lens, WithEntry(s, sp, Recorded(s.spokes[sp], r)), v)
  {
    OneReportShown(lens, s, u, sp, r, said);
    if said.None? {
      more, v := steps, u;
    } else {
      more, v := OneMore(w, steps, u, sp, said.value);
    }
  }

  /** A whole list of reports is a run of reporting steps of that spoke. */
  lemma {:induction false} ReportsShown(lens: Lens, s: State, w: World, sp: Spoke, list: seq<H.ReplaySummary>,
                                        said: H.ReplaySummary -> Option<(nat, ShardPhase)>)
    returns (steps: seq<Step>, v: World)
    requires Shows(lens, s, w) && sp in s.spokes
    requires forall i :: 0 <= i < |list| ==> Hears(lens, list[i], said(list[i])) && True(w, sp, said(list[i]))
    ensures Run(w, steps) == Some(v) && v.history == w.history
    ensures AllReports(steps, sp)
    ensures Shows(lens, Merged(s, sp, list), v)
  {
    if list == [] {
      steps, v := [], w;
      assert Merged(s, sp, list) == s by { assert s.spokes[sp := s.spokes[sp]] == s.spokes; }
    } else {
      var n := |list| - 1;
      steps, v := ReportsShown(lens, s, w, sp, list[..n], said);
      MergedSnoc(s, sp, list);
      steps, v := AddReport(lens, Merged(s, sp, list[..n]), w, steps, v, sp, list[n], said(list[n]));
    }
  }

  /** The same with whatever else the call changes in the entry. */
  lemma CallShown(lens: Lens, s: State, w: World, sp: Spoke, list: seq<H.ReplaySummary>,
                  said: H.ReplaySummary -> Option<(nat, ShardPhase)>, e: H.Entry)
    returns (steps: seq<Step>, v: World)
    requires Shows(lens, s, w) && Indifferent(lens) && sp in s.spokes
    requires forall i :: 0 <= i < |list| ==> Hears(lens, list[i], said(list[i])) && True(w, sp, said(list[i]))
    requires e.done == s.spokes[sp].done && e.replays == H.MergedReplays(s.spokes[sp].replays, list)
    ensures Run(w, steps) == Some(v) && v.history == w.history
    ensures AllReports(steps, sp)
    ensures Shows(lens, WithEntry(s, sp, e), v)
  {
    steps, v := ReportsShown(lens, s, w, sp, list, said);
    MergedOver(s, sp, list, e);
    EntryTouched(lens, Merged(s, sp, list), v.hub, v.left.stale, v.serial, sp, e);
  }

  lemma MergedOver(s: State, sp: Spoke, list: seq<H.ReplaySummary>, e: H.Entry)
    requires sp in s.spokes && e.done == s.spokes[sp].done
    requires e.replays == H.MergedReplays(s.spokes[sp].replays, list)
    ensures var t := Merged(s, sp, list);
            sp in t.spokes && e.done == t.spokes[sp].done && SameReplays(t.spokes[sp], e)
    ensures WithEntry(Merged(s, sp, list), sp, e) == WithEntry(s, sp, e)
  {
    assert Merged(s, sp, list).spokes[sp := e] == s.spokes[sp := e];
  }

  function Silenced(f: Entry, mine: bool): Entry {
    if mine then f.(replays := map[]) else f
  }

  function ClearedHub(hub: Hub, mine: bool): Hub
    requires hub.Up?
  {
    if mine then Cleared(hub) else hub
  }

  ghost predicate Forgets(lens: Lens, other: H.LoadTestKey, mine: bool) {
    forall e, c, f :: lens.entry(e, c, f) ==>
      lens.entry(H.Forget(e, other.namespace, other.name), c, Silenced(f, mine))
  }

  lemma ThroughForgets(id: H.LoadTestKey, read: H.Directive -> Directive, other: H.LoadTestKey)
    requires Plain(id)
    ensures Forgets(Through(id, read), other, other == id)
  {
    forall e: H.Entry, c, f | EntryShown(id, read, e, c, f)
      ensures EntryShown(id, read, H.Forget(e, other.namespace, other.name), c, Silenced(f, other == id))
    {
      PhasesCleared(id, e.replays, other);
    }
  }

  ghost predicate AllSilenced(entries: map<Spoke, Entry>, next: map<Spoke, Entry>, mine: bool) {
    next.Keys == entries.Keys && forall sp :: sp in next ==> next[sp] == Silenced(entries[sp], mine)
  }

  lemma EntriesCleared(lens: Lens, s: State, entries: map<Spoke, Entry>, base: nat, after: map<string, H.Entry>,
                       next: map<Spoke, Entry>, other: H.LoadTestKey, mine: bool)
    requires EntriesShown(lens, s, entries, base) && Forgets(lens, other, mine)
    requires H.Forgotten(s.spokes, after, {}, other.namespace, other.name)
    requires AllSilenced(entries, next, mine)
    ensures EntriesShown(lens, s.(spokes := after), next, base) && SameNumbers(s, after)
  {
    forall x | x in after && after[x].done in s.channels
      ensures lens.entry(after[x], s.channels[after[x].done], next[x])
    {
      assert SpokeShown(lens, s, x, entries[x], base);
      assert after[x] == H.Forget(s.spokes[x], other.namespace, other.name);
    }
    EntriesStay(lens, s, after, entries, next, base);
  }

  lemma ClearedEntries(hub: Hub, mine: bool)
    requires hub.Up?
    ensures ClearedHub(hub, mine) == Up(hub.epoch, ClearedHub(hub, mine).entries)
    ensures AllSilenced(hub.entries, ClearedHub(hub, mine).entries, mine)
  {
  }

  lemma EntriesReplaced(lens: Lens, s: State, hub: Hub, stale: map<(Spoke, nat), Leftover>, serial: nat,
                        after: map<string, H.Entry>, next: map<Spoke, Entry>)
    requires HubShown(lens, s, hub, stale, serial) && SameNumbers(s, after)
    requires EntriesShown(lens, s.(spokes := after), next, Base(hub))
    ensures HubShown(lens, s.(spokes := after), Up(hub.epoch, next), stale, serial)
  {
    StaleStays(lens, s, after, stale, Base(hub));
    Assembled(lens, s, s.(spokes := after), hub.epoch, next, stale, serial);
  }

  lemma ClearShown(lens: Lens, s: State, hub: Hub, stale: map<(Spoke, nat), Leftover>, serial: nat,
                   after: map<string, H.Entry>, other: H.LoadTestKey, mine: bool)
    requires HubShown(lens, s, hub, stale, serial) && Forgets(lens, other, mine)
    requires H.Forgotten(s.spokes, after, {}, other.namespace, other.name)
    ensures HubShown(lens, s.(spokes := after), ClearedHub(hub, mine), stale, serial)
  {
    ClearedEntries(hub, mine);
    var next := ClearedHub(hub, mine).entries;
    EntriesCleared(lens, s, hub.entries, Base(hub), after, next, other, mine);
    EntriesReplaced(lens, s, hub, stale, serial, after, next);
  }

  // ---------------------------------------------------------------------
  // The operations refine the protocol's steps
  // ---------------------------------------------------------------------

  /** Clearing the statuses of the load test is the protocol's; clearing those of another one is no step. */
  lemma ClearRefines(id: H.LoadTestKey, read: H.Directive -> Directive, s: State, w: World,
                     after: map<string, H.Entry>, other: H.LoadTestKey)
    requires Plain(id) && Shows(Through(id, read), s, w)
    requires H.Forgotten(s.spokes, after, {}, other.namespace, other.name)
    ensures Shows(Through(id, read), s.(spokes := after), w.(hub := ClearedHub(w.hub, other == id)))
  {
    ThroughForgets(id, read, other);
    ClearShown(Through(id, read), s, w.hub, w.left.stale, w.serial, after, other, other == id);
  }

  /** Registering, whether or not the spoke was registered before. */
  lemma RegisterRefines(id: H.LoadTestKey, read: H.Directive -> Directive, s: State, w: World, sp: Spoke,
                        cluster: string, cell: string, now: int, capacity: nat)
    requires Shows(Through(id, read), s, w)
    ensures var e := H.NewEntry(cluster, cell, now, |s.owners|);
            var v := Do(w, ByHub(Register(sp, capacity)));
            v.Some? && Shows(Through(id, read), AfterRegister(s, sp, e, capacity), v.value)
  {
    var e := H.NewEntry(cluster, cell, now, |s.owners|);
    ThroughFits(id, read);
    FreshShown(id, read, e, w.serial, capacity);
    RegisterShown(Through(id, read), s, w, sp, e, capacity);
  }

  lemma DeregisterRefines(id: H.LoadTestKey, read: H.Directive -> Directive, s: State, w: World, sp: Spoke)
    requires Shows(Through(id, read), s, w) && sp in s.spokes
    ensures var v := Do(w, ByHub(Deregister(sp)));
            v.Some? && Shows(Through(id, read), Without(s, sp), v.value)
  {
    ThroughFits(id, read);
    DeregisterShown(Through(id, read), s, w, sp);
  }

  /** Queueing after a look-up, whatever became of the registration since. */
  lemma QueueRefines(id: H.LoadTestKey, read: H.Directive -> Directive, s: State, w: World, sp: Spoke, done: nat,
                     x: H.Directive)
    requires Shows(Through(id, read), s, w) && OwnedBy(s, done, sp)
    ensures SendMatches(Through(id, read), s, w, sp, done, x, read(x))
  {
    ThroughFits(id, read);
    ThroughCarries(id, read, x);
    SendShown(Through(id, read), s, w, sp, done, x, read(x));
  }

  /** A spoke opens a stream: the look-up finds the registration, and the server's state stays. */
  lemma WatchRefines(id: H.LoadTestKey, read: H.Directive -> Directive, s: State, w: World, sp: Spoke, stream: nat)
    requires Shows(Through(id, read), s, w) && sp in s.spokes && !HasStream(w, sp, stream)
    ensures var v := Do(w, BySpoke(Watch(sp, stream)));
            v.Some? && Shows(Through(id, read), s, v.value)
  {
    ThroughFits(id, read);
    WatchShown(Through(id, read), s, w, sp, stream);
  }

  /** A watcher takes the first directive of its channel: the present registration's, which other streams may
      share, or a replaced one's. */
  lemma TakeRefines(id: H.LoadTestKey, read: H.Directive -> Directive, s: State, w: World, sp: Spoke, done: nat,
                    stream: nat)
    requires Shows(Through(id, read), s, w) && OwnedBy(s, done, sp) && s.channels[done].items != []
    requires WatchedAt(s, w, sp, done, stream)
    ensures TakeMatches(Through(id, read), s, w, sp, done, TakeAction(s, w, sp, done, stream))
  {
    ThroughFits(id, read);
    TakeShown(Through(id, read), s, w, sp, done, stream);
  }

  /** The reports of one call, on whatever load tests they are, are a run of reporting steps; whatever else the
      call changes in the entry, the load test does not see it. */
  lemma ReportsRefine(id: H.LoadTestKey, read: H.Directive -> Directive, s: State, w: World, sp: Spoke,
                      list: seq<H.ReplaySummary>, e: H.Entry)
    returns (steps: seq<Step>, v: World)
    requires Plain(id) && Shows(Through(id, read), s, w) && sp in s.spokes
    requires forall i :: 0 <= i < |list| ==> WellNamed(id, list[i]) && True(w, sp, Said(id, list[i]))
    requires e.done == s.spokes[sp].done && e.replays == H.MergedReplays(s.spokes[sp].replays, list)
    ensures Run(w, steps) == Some(v) && v.history == w.history
    ensures AllReports(steps, sp)
    ensures Shows(Through(id, read), WithEntry(s, sp, e), v)
  {
    forall i | 0 <= i < |list| ensures Hears(Through(id, read), list[i], Said(id, list[i])) {
      ThroughHears(id, read, list[i]);
    }
    ThroughFits(id, read);
    steps, v := CallShown(Through(id, read), s, w, sp, list, (r: H.ReplaySummary) => Said(id, r), e);
  }

  // ---------------------------------------------------------------------
  // A new server
  // ---------------------------------------------------------------------

  /** Every registration of the protocol, present or replaced, was numbered before the next one. */
  ghost predicate Past(hub: Hub, stale: map<(Spoke, nat), Leftover>, serial: nat) {
    && (hub.Up? ==> forall sp :: sp in hub.entries ==> hub.entries[sp].gen < serial)
    && (forall k :: k in stale ==> k.1 < serial)
  }

  ghost predicate AllPast(w: World) {
    Past(w.hub, w.left.stale, w.serial)
  }

  lemma {:induction false} RetireAllPast(left: Left, entries: map<Spoke, Entry>, serial: nat)
    requires forall k :: k in left.stale ==> k.1 < serial
    requires forall sp :: sp in entries ==> entries[sp].gen < serial
    ensures forall k :: k in RetireAll(left, entries).stale ==> k.1 < serial
    decreases entries
  {
    if entries == map[] {
    } else {
      var sp :| sp in entries && RetireAll(left, entries) == RetireAll(Retire(left, sp, entries[sp]), entries - {sp});
      RetireAllPast(Retire(left, sp, entries[sp]), entries - {sp}, serial);
    }
  }

  lemma RegistryKeepsPast(w: World, a: HubAction, v: World)
    requires AllPast(w) && Registry(w, a) == Some(v)
    ensures AllPast(v)
  {
    if a.StopServer? {
      RetireAllPast(w.left, w.hub.entries, w.serial);
    }
  }

  lemma SendKeepsPast(w: World, sp: Spoke, t: Target, d: Directive, o: Outcome, v: World)
    requires AllPast(w) && Send(w, sp, t, d, o) == Some(v)
    ensures AllPast(v)
  {
  }

  lemma LaunchingKeepsPast(w: World, j: JobAction, v: World)
    requires AllPast(w) && Launching(w, j) == Some(v)
    ensures AllPast(v)
  {
    if j.SendStart? {
      var owners, i := w.job.lt.status.plan.owners, w.job.next;
      var sent := Send(w, owners[i], w.job.target, Start(i, |owners|), j.outcome).value;
      SendKeepsPast(w, owners[i], w.job.target, Start(i, |owners|), j.outcome, sent);
    }
  }

  lemma EndingKeepsPast(w: World, j: JobAction, v: World)
    requires AllPast(w) && Ending(w, j) == Some(v)
    ensures AllPast(v)
  {
    if j.SendStop? {
      var sp := w.job.lt.status.plan.roster[w.job.next];
      SendKeepsPast(w, sp, w.job.target, Stop, j.outcome, Send(w, sp, w.job.target, Stop, j.outcome).value);
    }
  }

  lemma JobKeepsPast(w: World, j: JobAction, v: World)
    requires AllPast(w) && Reconcile(w, j) == Some(v)
    ensures AllPast(v)
  {
    if Open(w, j) == Some(v) || Prepare(w, j) == Some(v) {
      OpeningFrame(w, j, v);
    } else if Launching(w, j) == Some(v) {
      LaunchingKeepsPast(w, j, v);
    } else {
      EndingKeepsPast(w, j, v);
    }
  }

  lemma RemoteKeepsPast(w: World, a: SpokeAction, v: World)
    requires AllPast(w) && Remote(w, a) == Some(v)
    ensures AllPast(v)
  {
  }

  lemma NextKeepsPast(w: World, s: Step)
    requires AllPast(w) && Next(w, s).Some?
    ensures AllPast(Next(w, s).value)
  {
    var v := Do(w, s.action).value;
    match s.action
    case ByUser(u) => assert v == w.(cr := v.cr);
    case ByJob(j) => JobKeepsPast(w, j, v);
    case ByHub(h) => RegistryKeepsPast(w, h, v);
    case BySpoke(a) => RemoteKeepsPast(w, a, v);
    case ByList(l) => assert v.hub == w.hub && v.left == w.left && v.serial == w.serial;
  }

  lemma PastHolds(steps: seq<Step>, w: World)
    requires Run(INIT, steps) == Some(w)
    ensures AllPast(w)
  {
    forall x, s | AllPast(x) && Next(x, s).Some? ensures AllPast(Next(x, s).value) {
      NextKeepsPast(x, s);
    }
    RunInduction(x => AllPast(x), s => true, INIT, steps, w);
  }

  /** In every reachable state without a server, starting one with an empty registry is the protocol's step. */
  lemma StartRefines(id: H.LoadTestKey, read: H.Directive -> Directive, steps: seq<Step>, w: World)
    requires Run(INIT, steps) == Some(w) && !w.hub.Up?
    ensures var v := Do(w, ByHub(StartServer));
            v.Some? && Shows(Through(id, read), State(map[], map[], []), v.value)
  {
    PastHolds(steps, w);
  }

  // ---------------------------------------------------------------------
  // What the reconciler reads
  // ---------------------------------------------------------------------

  /** Every status of the load test, each once: what `ReplayStatuses` returns. */
  ghost predicate AllStatuses(spokes: map<string, H.Entry>, id: H.LoadTestKey, list: seq<H.Snapshot>) {
    && (forall x :: x in list <==> H.IsStatus(spokes, id.namespace, id.name, x))
    && H.DistinctTags(list)
  }

  function KeyOf(x: H.Snapshot): (Spoke, nat) {
    (x.spoke, if x.summary.index >= 0 then x.summary.index else 0)
  }

  ghost predicate DistinctKeys(list: seq<H.Snapshot>) {
    forall i, j :: 0 <= i < j < |list| ==> KeyOf(list[i]) != KeyOf(list[j])
  }

  ghost predicate InView(x: H.Snapshot, view: LoadTest.Statuses) {
    x.summary.index >= 0 && KeyOf(x) in view && view[KeyOf(x)] == PhaseOf(x.summary.phase)
  }

  ghost predicate InList(k: (Spoke, nat), list: seq<H.Snapshot>) {
    exists x :: x in list && KeyOf(x) == k
  }

  /** The list, by spoke and index, is the view of the protocol. */
  ghost predicate IsView(list: seq<H.Snapshot>, view: LoadTest.Statuses) {
    && (forall x :: x in list ==> InView(x, view)) && (forall k :: k in view ==> InList(k, list))
    && DistinctKeys(list)
  }

  lemma StatusSeen(id: H.LoadTestKey, read: H.Directive -> Directive, s: State, w: World, x: H.Snapshot)
    requires Plain(id) && Shows(Through(id, read), s, w) && H.IsStatus(s.spokes, id.namespace, id.name, x)
    ensures x.summary.index >= 0 && H.ReplayKey(x.summary) == ShardKey(id, x.summary.index)
    ensures (x.spoke, x.summary.index) in View(w.hub)
    ensures View(w.hub)[(x.spoke, x.summary.index)] == PhaseOf(x.summary.phase)
  {
    var f := w.hub.entries[x.spoke];
    assert SpokeShown(Through(id, read), s, x.spoke, f, Base(w.hub));
    var m := s.spokes[x.spoke].replays;
    assert Named(id, m) && f.replays == Phases(id, m);
    OursHasShardKey(id, x.summary);
    PhasesAt(id, m, x.summary.index);
  }

  lemma SeenIsStatus(id: H.LoadTestKey, read: H.Directive -> Directive, s: State, w: World, k: (Spoke, nat))
    returns (x: H.Snapshot)
    requires Plain(id) && Shows(Through(id, read), s, w) && k in View(w.hub)
    ensures H.IsStatus(s.spokes, id.namespace, id.name, x) && KeyOf(x) == k
  {
    var f := w.hub.entries[k.0];
    assert SpokeShown(Through(id, read), s, k.0, f, Base(w.hub));
    var e := s.spokes[k.0];
    assert Named(id, e.replays) && f.replays == Phases(id, e.replays);
    PhasesAt(id, e.replays, k.1);
    IndexReported(id, e.replays, k.1);
    x := H.Snapshot(k.0, e.cell, e.replays[ShardKey(id, k.1)]);
  }

  /** The list that `ReplayStatuses` returns is, shard by shard, what the protocol's reconciler sees. */
  lemma StatusesAreView(id: H.LoadTestKey, read: H.Directive -> Directive, s: State, w: World, list: seq<H.Snapshot>)
    requires Plain(id) && Shows(Through(id, read), s, w) && AllStatuses(s.spokes, id, list)
    ensures IsView(list, View(w.hub))
  {
    forall x | x in list ensures InView(x, View(w.hub)) {
      StatusSeen(id, read, s, w, x);
    }
    forall k | k in View(w.hub) ensures InList(k, list) {
      var x := SeenIsStatus(id, read, s, w, k);
    }
    forall i, j | 0 <= i < j < |list| ensures KeyOf(list[i]) != KeyOf(list[j]) {
      StatusSeen(id, read, s, w, list[i]);
      StatusSeen(id, read, s, w, list[j]);
      assert H.Tag(list[i]) != H.Tag(list[j]);
    }
  }

  /** The shards that the list reports in a phase. */
  ghost function Listed(list: seq<H.Snapshot>, ph: ShardPhase): set<(Spoke, nat)> {
    if list == [] then {}
    else
      var init, last := list[..|list| - 1], list[|list| - 1];
      Listed(init, ph) + if PhaseOf(last.summary.phase) == ph then {KeyOf(last)} else {}
  }

  lemma {:induction false} ListedIn(list: seq<H.Snapshot>, ph: ShardPhase, k: (Spoke, nat))
    ensures k in Listed(list, ph) <==> exists x :: x in list && KeyOf(x) == k && PhaseOf(x.summary.phase) == ph
  {
    if list == [] {
    } else {
      var init := list[..|list| - 1];
      ListedIn(init, ph, k);
      assert list == init + [list[|list| - 1]];
    }
  }

  function Count(list: seq<H.Snapshot>, ph: ShardPhase): nat {
    if list == [] then 0
    else Count(list[..|list| - 1], ph) + if PhaseOf(list[|list| - 1].summary.phase) == ph then 1 else 0
  }

  lemma LastNotListed(list: seq<H.Snapshot>, ph: ShardPhase)
    requires DistinctKeys(list) && list != []
    ensures KeyOf(list[|list| - 1]) !in Listed(list[..|list| - 1], ph)
  {
    var n := |list| - 1;
    ListedIn(list[..n], ph, KeyOf(list[n]));
    forall x | x in list[..n] ensures KeyOf(x) != KeyOf(list[n]) {
      var i :| 0 <= i < n && list[i] == x;
    }
  }

  lemma {:induction false} CountIsListed(list: seq<H.Snapshot>, ph: ShardPhase)
    requires DistinctKeys(list)
    ensures Count(list, ph) == |Listed(list, ph)|
  {
    if list == [] {
    } else {
      var n := |list| - 1;
      var init := list[..n];
      assert DistinctKeys(init) by { assert forall i :: 0 <= i < n ==> init[i] == list[i]; }
      CountIsListed(init, ph);
      LastNotListed(list, ph);
    }
  }

  lemma ListedIsPhase(list: seq<H.Snapshot>, view: LoadTest.Statuses, ph: ShardPhase)
    requires IsView(list, view)
    ensures Listed(list, ph) == InPhase(view, ph)
  {
    forall k ensures k in Listed(list, ph) <==> k in InPhase(view, ph) {
      ListedIn(list, ph, k);
      if k in view {
        assert InList(k, list);
      }
      assert forall x :: x in list ==> InView(x, view);
    }
  }

  method CountPhases(list: seq<H.Snapshot>) returns (completed: nat, failed: nat, running: nat)
    ensures completed == Count(list, Done) && failed == Count(list, Broken) && running == Count(list, Active)
  {
    completed, failed, running := 0, 0, 0;
    for n := 0 to |list|
      invariant completed == Count(list[..n], Done)
      invariant failed == Count(list[..n], Broken)
      invariant running == Count(list[..n], Active)
    {
      assert list[..n + 1][..n] == list[..n];
      match list[n].summary.phase
      case Completed => completed := completed + 1;
      case Failed => failed := failed + 1;
      case Running => running := running + 1;
      case _ =>
    }
    assert list[..|list|] == list;
  }

  lemma CountIsPhase(list: seq<H.Snapshot>, view: LoadTest.Statuses, ph: ShardPhase)
    requires IsView(list, view)
    ensures Count(list, ph) == CountPhase(view, ph)
  {
    CountIsListed(list, ph);
    ListedIsPhase(list, view, ph);
  }

  /** The counting loop of `aggregate`: it finds the numbers of the protocol's view. */
  method CountStatuses(list: seq<H.Snapshot>, ghost view: LoadTest.Statuses)
    returns (completed: nat, failed: nat, running: nat)
    requires IsView(list, view)
    ensures completed == CountPhase(view, Done) && failed == CountPhase(view, Broken)
    ensures running == CountPhase(view, Active)
  {
    completed, failed, running := CountPhases(list);
    CountIsPhase(list, view, Done);
    CountIsPhase(list, view, Broken);
    CountIsPhase(list, view, Active);
  }
}
