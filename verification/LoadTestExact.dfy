/**
 Exactly when a registered spoke is rid of a finished load test. Over all continuations, whatever streams are
 opened: no START may be left in the registration's queue or behind the last STOP of one of its streams.
 Over the continuations with one stream at a time: the queue, in order, must leave no shard. And in both cases
 no START may be left from a replaced registration.
 */
module LoadTestExact {
  import opened Options
  import opened LoadTest
  import opened LoadTestPlan
  import opened LoadTestQueue
  import opened LoadTestStop
  import Runs

  // ---------------------------------------------------------------------
  // Runs from one world to another
  // ---------------------------------------------------------------------

  ghost predicate Leads(w: World, v: World) {
    exists steps :: Run(w, steps) == Some(v)
  }

  lemma LeadsNowhere(w: World)
    ensures Leads(w, w)
  {
    assert Run(w, []) == Some(w);
  }

  lemma LeadsOn(w: World, u: World, a: Action, v: World)
    requires Leads(w, u) && Do(u, a) == Some(v)
    ensures Leads(w, v.(now := u.now + 1))
  {
    var steps :| Run(w, steps) == Some(u);
    var s := Step(a, 0);
    Runs.Extended(Stepper(), w, steps, u, s);
    assert Stepper()(u, s) == Next(u, s);
    assert Run(w, steps + [s]) == Some(v.(now := u.now + 1));
  }

  lemma LeadsFurther(w: World, u: World, v: World)
    requires Leads(w, u) && Leads(u, v)
    ensures Leads(w, v)
  {
    var first, second :| Run(w, first) == Some(u) && Run(u, second) == Some(v);
    Runs.Concatenated(Stepper(), w, first, u, second);
    assert Run(w, first + second) == Some(v);
  }

  /** A run in which only the registration of the spoke and the spoke's shards change. */
  ghost predicate Becomes(w: World, sp: Spoke, v: World, f: Entry) {
    && w.hub.Up? && sp in w.hub.entries && f.gen == w.hub.entries[sp].gen
    && Leads(w, v) && v.hub == Update(w, sp, f) && v.left == w.left && v.cr == w.cr && v.lost == w.lost
  }

  lemma BecomesItself(w: World, sp: Spoke)
    requires w.hub.Up? && sp in w.hub.entries
    ensures Becomes(w, sp, w, w.hub.entries[sp])
  {
    LeadsNowhere(w);
    assert w.hub.entries[sp := w.hub.entries[sp]] == w.hub.entries;
  }

  lemma BecomesFurther(w: World, sp: Spoke, u: World, f: Entry, v: World, g: Entry)
    requires Becomes(w, sp, u, f) && Becomes(u, sp, v, g)
    ensures Becomes(w, sp, v, g)
  {
    LeadsFurther(w, u, v);
    assert w.hub.entries[sp := f][sp := g] == w.hub.entries[sp := g];
  }

  /** One step of a stream. */
  lemma StreamStep(w: World, a: SpokeAction) returns (v: World, f: Entry)
    requires Stream(w, a).Some? && !a.Lose?
    ensures f == Stream(w, a).value.hub.entries[a.sp] && Becomes(w, a.sp, v, f)
    ensures v.shards == Stream(w, a).value.shards && v.shared == Stream(w, a).value.shared
  {
    v, f := Stream(w, a).value.(now := w.now + 1), Stream(w, a).value.hub.entries[a.sp];
    LeadsNowhere(w);
    LeadsOn(w, w, BySpoke(a), Stream(w, a).value);
  }

  // ---------------------------------------------------------------------
  // Delivering
  // ---------------------------------------------------------------------

  /** A stream delivers everything that is on it. */
  lemma {:induction false} DrainStream(w: World, sp: Spoke, id: nat) returns (v: World)
    requires HasStream(w, sp, id)
    ensures Becomes(w, sp, v, WithStream(w.hub.entries[sp], id, [])) && v.shared == w.shared
    ensures Live(v.shards, sp) == After(w.hub.entries[sp].streams[id], Live(w.shards, sp))
    decreases |w.hub.entries[sp].streams[id]|
  {
    var e := w.hub.entries[sp];
    var q := e.streams[id];
    if q == [] {
      v := w;
      BecomesItself(w, sp);
      assert WithStream(e, id, []) == e by { assert e.streams[id := []] == e.streams; }
    } else {
      var u, f := StreamStep(w, Receive(sp, id));
      HandledLive(w.shards, sp, q[0], w.now, sp);
      v := DrainStream(u, sp, id);
      assert WithStream(f, id, []) == WithStream(e, id, []) by {
        assert e.streams[id := q[1..]][id := []] == e.streams[id := []];
      }
      BecomesFurther(w, sp, u, f, v, WithStream(e, id, []));
    }
  }

  /** A stream takes the first n directives from the queue. */
  lemma {:induction false} PopSome(w: World, sp: Spoke, id: nat, n: nat) returns (v: World)
    requires HasStream(w, sp, id) && n <= |w.hub.entries[sp].buffer|
    ensures var e := w.hub.entries[sp];
            Becomes(w, sp, v, WithStream(e, id, e.streams[id] + e.buffer[..n]).(buffer := e.buffer[n..]))
    ensures v.shards == w.shards && v.shared == w.shared
    decreases n
  {
    var e := w.hub.entries[sp];
    var q := e.streams[id];
    if n == 0 {
      v := w;
      BecomesItself(w, sp);
      assert e.streams[id := q] == e.streams && q + e.buffer[..0] == q;
    } else {
      var u, f := StreamStep(w, Pop(sp, id));
      v := PopSome(u, sp, id, n - 1);
      assert f.buffer[..n - 1] == e.buffer[1..n] && f.buffer[n - 1..] == e.buffer[n..];
      assert q + [e.buffer[0]] + e.buffer[1..n] == q + e.buffer[..n];
      var g := WithStream(e, id, q + e.buffer[..n]).(buffer := e.buffer[n..]);
      assert e.streams[id := q + [e.buffer[0]]][id := q + e.buffer[..n]] == e.streams[id := q + e.buffer[..n]];
      BecomesFurther(w, sp, u, f, v, g);
    }
  }

  /** The streams outside `keep` that still hold something. */
  ghost function Busy(streams: Streams, keep: set<nat>): set<nat> {
    set id | id in streams && id !in keep && streams[id] != []
  }

  ghost predicate EmptiedBut(e: Entry, f: Entry, keep: set<nat>) {
    && f.buffer == e.buffer && f.gen == e.gen && f.streams.Keys == e.streams.Keys
    && forall id :: id in e.streams ==> f.streams[id] == if id in keep then e.streams[id] else []
  }

  lemma EmptiedMore(e: Entry, id: nat, f: Entry, keep: set<nat>)
    requires id in e.streams && id !in keep && EmptiedBut(WithStream(e, id, []), f, keep)
    ensures EmptiedBut(e, f, keep)
  {
  }

  /** All streams but those of `keep` deliver everything. */
  lemma {:induction false} DrainStreams(w: World, sp: Spoke, keep: set<nat>) returns (v: World, f: Entry)
    requires w.hub.Up? && sp in w.hub.entries
    ensures Becomes(w, sp, v, f) && EmptiedBut(w.hub.entries[sp], f, keep)
    ensures (forall id :: id in w.hub.entries[sp].streams && id !in keep ==> Stop !in w.hub.entries[sp].streams[id]) ==>
      Live(w.shards, sp) <= Live(v.shards, sp)
    decreases Busy(w.hub.entries[sp].streams, keep)
  {
    var e := w.hub.entries[sp];
    if Busy(e.streams, keep) == {} {
      v, f := w, e;
      BecomesItself(w, sp);
      forall id | id in e.streams && id !in keep ensures e.streams[id] == [] {
        assert id !in Busy(e.streams, keep);
      }
    } else {
      var id :| id in Busy(e.streams, keep);
      var u := DrainStream(w, sp, id);
      var g := WithStream(e, id, []);
      assert Busy(g.streams, keep) == Busy(e.streams, keep) - {id};
      v, f := DrainStreams(u, sp, keep);
      EmptiedMore(e, id, f, keep);
      BecomesFurther(w, sp, u, g, v, f);
      if Stop !in e.streams[id] {
        AfterGrows(e.streams[id], Live(w.shards, sp));
      }
    }
  }

  lemma {:induction false} Unused(ids: set<nat>) returns (n: nat)
    ensures forall id :: id in ids ==> id < n
  {
    if ids == {} {
      n := 0;
    } else {
      var id :| id in ids;
      var m := Unused(ids - {id});
      n := if m <= id then id + 1 else m;
      assert forall x :: x in ids ==> x == id || x in ids - {id};
    }
  }

  /** One more stream is opened. */
  lemma OpenStream(w: World, sp: Spoke) returns (v: World, id: nat)
    requires w.hub.Up? && sp in w.hub.entries
    ensures id !in w.hub.entries[sp].streams && Becomes(w, sp, v, WithStream(w.hub.entries[sp], id, []))
    ensures v.shards == w.shards
  {
    id := Unused(w.hub.entries[sp].streams.Keys);
    var f;
    v, f := StreamStep(w, Watch(sp, id));
  }

  ghost predicate WorkedOffBut(e: Entry, f: Entry, keep: set<nat>) {
    && f.buffer == [] && f.gen == e.gen && e.streams.Keys <= f.streams.Keys
    && (forall id :: id in f.streams && !(id in e.streams && id in keep) ==> f.streams[id] == [])
    && (forall id :: id in e.streams && id in keep ==> f.streams[id] == e.streams[id])
  }

  /** Through one more stream, everything but what is on the streams of `keep` is delivered. */
  lemma DrainBut(w: World, sp: Spoke, keep: set<nat>) returns (v: World, f: Entry)
    requires w.hub.Up? && sp in w.hub.entries && keep <= w.hub.entries[sp].streams.Keys
    ensures Becomes(w, sp, v, f) && WorkedOffBut(w.hub.entries[sp], f, keep)
    ensures !HasStop(w.hub.entries[sp]) ==> Live(w.shards, sp) <= Live(v.shards, sp)
  {
    var e := w.hub.entries[sp];
    var u, id := OpenStream(w, sp);
    var g := WithStream(e, id, []);
    var x := PopSome(u, sp, id, |e.buffer|);
    var h := WithStream(e, id, e.buffer).(buffer := []);
    assert [] + e.buffer[..|e.buffer|] == e.buffer && e.buffer[|e.buffer|..] == [];
    assert e.streams[id := []][id := e.buffer] == e.streams[id := e.buffer];
    BecomesFurther(w, sp, u, g, x, h);
    assert !HasStop(e) ==> forall i :: i in h.streams ==> Stop !in h.streams[i];
    v, f := DrainStreams(x, sp, keep);
    BecomesFurther(w, sp, x, h, v, f);
  }

  // ---------------------------------------------------------------------
  // What is left can come last
  // ---------------------------------------------------------------------

  ghost predicate SameRegistration(w: World, v: World, sp: Spoke) {
    && w.hub.Up? && sp in w.hub.entries && v.hub.Up? && sp in v.hub.entries
    && v.hub.entries[sp].gen == w.hub.entries[sp].gen && v.hub.entries[sp].gen !in v.lost
  }

  /** The spoke has worked off its queue, with the registration kept and no STOP lost, and has a shard. */
  ghost predicate Haunted(w: World, v: World, sp: Spoke) {
    Leads(w, v) && SameRegistration(w, v, sp) && WorkedOff(v.hub.entries[sp]) && Live(v.shards, sp) != {}
  }

  ghost predicate Registered(w: World, sp: Spoke) {
    w.hub.Up? && sp in w.hub.entries && w.hub.entries[sp].gen !in w.lost
  }

  lemma HauntedFrom(w: World, sp: Spoke, u: World, f: Entry, v: World)
    requires Registered(w, sp) && Becomes(w, sp, u, f) && Haunted(u, v, sp)
    ensures Haunted(w, v, sp)
  {
    LeadsFurther(w, u, v);
  }

  /** A START on a stream with no STOP behind it. */
  lemma UnsettledHaunts(w: World, sp: Spoke, id: nat) returns (v: World)
    requires Registered(w, sp) && id in w.hub.entries[sp].streams && !Tidy(w.hub.entries[sp].streams[id])
    ensures Haunted(w, v, sp)
  {
    var e := w.hub.entries[sp];
    var u, f := DrainBut(w, sp, {id});
    v := DrainStream(u, sp, id);
    BecomesFurther(w, sp, u, f, v, WithStream(f, id, []));
    AfterMonotone(e.streams[id], {}, Live(u.shards, sp));
  }

  /** A START in the queue: a stream of its own can take it. */
  lemma QueuedStartHaunts(w: World, sp: Spoke) returns (v: World)
    requires Registered(w, sp) && !Calm(w.hub.entries[sp].buffer)
    ensures Haunted(w, v, sp)
  {
    var e := w.hub.entries[sp];
    var d :| d in e.buffer && d.Start?;
    var n :| 0 <= n < |e.buffer| && e.buffer[n] == d;
    var u, a := OpenStream(w, sp);
    var x := PopSome(u, sp, a, n);
    var h := WithStream(e, a, e.buffer[..n]).(buffer := e.buffer[n..]);
    assert [] + e.buffer[..n] == e.buffer[..n];
    assert e.streams[a := []][a := e.buffer[..n]] == e.streams[a := e.buffer[..n]];
    BecomesFurther(w, sp, u, WithStream(e, a, []), x, h);
    v := FirstStartHaunts(x, sp);
    HauntedFrom(w, sp, x, h, v);
  }

  lemma FirstStartHaunts(w: World, sp: Spoke) returns (v: World)
    requires Registered(w, sp) && w.hub.entries[sp].buffer != [] && w.hub.entries[sp].buffer[0].Start?
    ensures Haunted(w, v, sp)
  {
    var e := w.hub.entries[sp];
    var u, b := OpenStream(w, sp);
    var x, f := StreamStep(u, Pop(sp, b));
    BecomesFurther(w, sp, u, WithStream(e, b, []), x, f);
    var q := f.streams[b];
    assert q == [e.buffer[0]] && q[1..] == [] && After(q, {}) == Effect(q[0], {});
    assert !Tidy(q);
    v := UnsettledHaunts(x, sp, b);
    HauntedFrom(w, sp, x, f, v);
  }

  /** Shards, and no STOP for them. */
  lemma UnstoppedHaunts(w: World, sp: Spoke) returns (v: World)
    requires Registered(w, sp) && Live(w.shards, sp) != {} && !HasStop(w.hub.entries[sp])
    ensures Haunted(w, v, sp)
  {
    var f;
    v, f := DrainBut(w, sp, {});
  }

  /** A START that was sent before its registration was replaced comes last. */
  lemma LastArrival(w: World, sp: Spoke, u: World, f: Entry, d: Directive) returns (v: World)
    requires Registered(w, sp) && Becomes(w, sp, u, f) && WorkedOff(f) && d.Start? && (sp, d) in u.left.flying
    ensures Haunted(w, v, sp) && v.shared == u.shared
  {
    var a := BySpoke(LateArrives(sp, d));
    LeadsOn(w, u, a, Do(u, a).value);
    v := Do(u, a).value.(now := u.now + 1);
    HandledLive(u.shards, sp, d, u.now, sp);
    assert d.index in Live(v.shards, sp);
  }

  /** The watcher of a replaced queue can send all of it up to a START. */
  lemma {:induction false} StaleStartFlies(w: World, sp: Spoke, g: nat, d: Directive) returns (v: World)
    requires (sp, g) in w.left.stale && d in w.left.stale[(sp, g)].queue && d.Start?
    ensures Leads(w, v) && v.hub == w.hub && v.cr == w.cr && v.lost == w.lost && v.shared == w.shared
    ensures (sp, d) in v.left.flying
    decreases |w.left.stale[(sp, g)].queue|
  {
    var q, a := w.left.stale[(sp, g)].queue, BySpoke(StaleSends(sp, g));
    LeadsNowhere(w);
    LeadsOn(w, w, a, Do(w, a).value);
    v := Do(w, a).value.(now := w.now + 1);
    if q[0] == d {
      TaggedIn(sp, q[..1], (sp, d));
    } else {
      assert v.left.stale[(sp, g)].queue == q[1..];
      var u := v;
      v := StaleStartFlies(u, sp, g, d);
      LeadsFurther(w, u, v);
    }
  }

  /** So a START from a replaced registration can be in the air. */
  lemma LeftStartFlies(w: World, sp: Spoke) returns (v: World, d: Directive)
    requires !Quiet(w.left, sp)
    ensures Leads(w, v) && v.hub == w.hub && v.cr == w.cr && v.lost == w.lost && v.shared == w.shared
    ensures d.Start? && (sp, d) in v.left.flying
  {
    if x :| x in w.left.flying && x.0 == sp && x.1.Start? {
      v, d := w, x.1;
      LeadsNowhere(w);
    } else {
      var k :| k in w.left.stale && k.0 == sp && !Calm(w.left.stale[k].queue);
      d :| d in w.left.stale[k].queue && d.Start?;
      v := StaleStartFlies(w, sp, k.1, d);
    }
  }

  /** A START left from a replaced registration, in a queue that still has its watcher or already sent, can
      bring a shard back on a spoke that kept its registration, lost nothing and has worked off its queue. */
  lemma LeftStartIsDangerous(w: World, sp: Spoke) returns (v: World)
    requires Registered(w, sp) && !Quiet(w.left, sp)
    ensures Haunted(w, v, sp)
  {
    var u, d := LeftStartFlies(w, sp);
    var x, f := DrainBut(u, sp, {});
    v := LastArrival(u, sp, x, f, d);
    LeadsFurther(w, u, v);
  }

  // ---------------------------------------------------------------------
  // Whatever streams are opened
  // ---------------------------------------------------------------------

  /** Whenever the registration is kept, no STOP lost and the queue worked off, there is no shard. */
  ghost predicate StaysClean(w: World, sp: Spoke) {
    forall v :: Leads(w, v) && SameRegistration(w, v, sp) && WorkedOff(v.hub.entries[sp]) ==> Live(v.shards, sp) == {}
  }

  /** With a STOP in it, a queue ends the same whatever was there before. */
  lemma {:induction false} AfterForgets(q: seq<Directive>, live: set<nat>, other: set<nat>)
    requires Stop in q
    ensures After(q, live) == After(q, other)
  {
    if q[0].Stop? {
    } else {
      assert q == [q[0]] + q[1..];
      AfterForgets(q[1..], Effect(q[0], live), Effect(q[0], other));
    }
  }

  lemma {:induction false} AfterAppend(p: seq<Directive>, q: seq<Directive>, live: set<nat>)
    ensures After(p + q, live) == After(q, After(p, live))
  {
    if p == [] {
      assert p + q == q;
    } else {
      assert (p + q)[1..] == p[1..] + q;
      AfterAppend(p[1..], q, Effect(p[0], live));
    }
  }

  lemma {:induction false} AfterCalm(q: seq<Directive>)
    requires Calm(q)
    ensures Tidy(q)
  {
    if q == [] {
    } else {
      assert q[0] in q && forall d :: d in q[1..] ==> d in q;
      AfterCalm(q[1..]);
    }
  }

  /** What ends clean in whatever order ends clean in order. */
  lemma AnyhowInOrder(e: Entry, live: set<nat>)
    requires Alone(e) && EndsCleanAnyhow(e, live)
    ensures EndsClean(e, live)
  {
    var q := Sole(e.streams);
    assert Tidy(q) && (Stop in q || Stop in e.buffer || live == {});
    AfterAppend(q, e.buffer, live);
    AfterAppend(q, e.buffer, {});
    AfterCalm(e.buffer);
    if Stop in q {
      AfterForgets(q, live, {});
    } else if Stop in e.buffer {
      AfterForgets(e.buffer, After(q, live), After(q, {}));
    }
  }

  lemma SoundAt(w: World, sp: Spoke, clear: bool, v: World)
    requires OverInv(w) && Registered(w, sp) && Leads(w, v) && SameRegistration(w, v, sp) && Quiet(w.left, sp)
    requires if clear then EndsCleanAnyhow(w.hub.entries[sp], Live(w.shards, sp))
             else w.hub.entries[sp].gen !in w.shared ==> EndsClean(w.hub.entries[sp], Live(w.shards, sp))
    ensures clear ==> EndsCleanAnyhow(v.hub.entries[sp], Live(v.shards, sp))
    ensures w.hub.entries[sp].gen !in v.shared ==> EndsClean(v.hub.entries[sp], Live(v.shards, sp))
  {
    var e := w.hub.entries[sp];
    var acks: Acks := map[sp := Taken(e.gen, true, clear)];
    if clear && e.gen !in w.shared {
      AnyhowInOrder(e, Live(w.shards, sp));
    }
    assert Good(acks[sp], w.hub, sp, w.left, w.shards, w.lost, w.shared);
    var steps :| Run(w, steps) == Some(v);
    SoundForever(acks, w, steps, v);
    assert Good(acks[sp], v.hub, sp, v.left, v.shards, v.lost, v.shared);
  }

  /** When the load test is over, a registered spoke is rid of it for good, whatever streams are opened, if
      and only if no START is left in its queue or unstopped on a stream, its shards have a STOP coming, and no
      START is left from a replaced registration of it. */
  lemma HarmlessExactly(w: World, sp: Spoke)
    requires OverInv(w) && Registered(w, sp)
    ensures StaysClean(w, sp) <==> EndsCleanAnyhow(w.hub.entries[sp], Live(w.shards, sp)) && Quiet(w.left, sp)
  {
    var e, live := w.hub.entries[sp], Live(w.shards, sp);
    if EndsCleanAnyhow(e, live) && Quiet(w.left, sp) {
      forall v | Leads(w, v) && SameRegistration(w, v, sp) && WorkedOff(v.hub.entries[sp])
        ensures Live(v.shards, sp) == {}
      {
        SoundAt(w, sp, true, v);
        WorkedOffClean(v.hub.entries[sp], Live(v.shards, sp));
      }
    } else {
      var v := HarmfulHaunts(w, sp);
    }
  }

  lemma HarmfulHaunts(w: World, sp: Spoke) returns (v: World)
    requires Registered(w, sp)
    requires !EndsCleanAnyhow(w.hub.entries[sp], Live(w.shards, sp)) || !Quiet(w.left, sp)
    ensures Haunted(w, v, sp)
  {
    var e := w.hub.entries[sp];
    if !Quiet(w.left, sp) {
      v := LeftStartIsDangerous(w, sp);
    } else if !Calm(e.buffer) {
      v := QueuedStartHaunts(w, sp);
    } else if id :| id in e.streams && !Tidy(e.streams[id]) {
      v := UnsettledHaunts(w, sp, id);
    } else {
      v := UnstoppedHaunts(w, sp);
    }
  }

  // ---------------------------------------------------------------------
  // With one stream at a time
  // ---------------------------------------------------------------------

  /** The same over the continuations in which the registration never has two streams at once. */
  ghost predicate StaysCleanAlone(w: World, sp: Spoke) {
    forall v :: Leads(w, v) && SameRegistration(w, v, sp) && WorkedOff(v.hub.entries[sp]) ==>
      (v.hub.entries[sp].gen !in v.shared ==> Live(v.shards, sp) == {})
  }

  /** Through its one stream the registration delivers everything in order. */
  lemma DrainLine(w: World, sp: Spoke) returns (v: World, f: Entry)
    requires w.hub.Up? && sp in w.hub.entries && Alone(w.hub.entries[sp])
    ensures Becomes(w, sp, v, f) && WorkedOff(f) && v.shared == w.shared
    ensures Live(v.shards, sp) == After(Line(w.hub.entries[sp]), Live(w.shards, sp))
  {
    var e := w.hub.entries[sp];
    if e.streams == map[] {
      var u, g := StreamStep(w, Watch(sp, 0));
      assert Line(g) == Line(e) && Alone(g);
      v, f := DrainThrough(u, sp, 0);
      BecomesFurther(w, sp, u, g, v, f);
    } else {
      var id :| id in e.streams;
      v, f := DrainThrough(w, sp, id);
    }
  }

  lemma DrainThrough(w: World, sp: Spoke, id: nat) returns (v: World, f: Entry)
    requires HasStream(w, sp, id) && Alone(w.hub.entries[sp])
    ensures Becomes(w, sp, v, f) && WorkedOff(f) && v.shared == w.shared
    ensures Live(v.shards, sp) == After(Line(w.hub.entries[sp]), Live(w.shards, sp))
  {
    var e := w.hub.entries[sp];
    var u := PopSome(w, sp, id, |e.buffer|);
    var g := WithStream(e, id, e.streams[id] + e.buffer).(buffer := []);
    assert e.buffer[..|e.buffer|] == e.buffer && e.buffer[|e.buffer|..] == [];
    v := DrainStream(u, sp, id);
    f := WithStream(g, id, []);
    BecomesFurther(w, sp, u, g, v, f);
    assert forall x :: x in f.streams ==> x in e.streams;
  }

  /** As long as it has one stream at a time, a registered spoke is rid of the load test for good if and only
      if its queue, in order, leaves no shard and no START is left from a replaced registration of it. */
  lemma HarmlessExactlyAlone(w: World, sp: Spoke)
    requires OverInv(w) && Registered(w, sp) && w.hub.entries[sp].gen !in w.shared
    ensures StaysCleanAlone(w, sp) <==> EndsClean(w.hub.entries[sp], Live(w.shards, sp)) && Quiet(w.left, sp)
  {
    var e, live := w.hub.entries[sp], Live(w.shards, sp);
    if EndsClean(e, live) && Quiet(w.left, sp) {
      forall v | Leads(w, v) && SameRegistration(w, v, sp) && WorkedOff(v.hub.entries[sp])
              && v.hub.entries[sp].gen !in v.shared
        ensures Live(v.shards, sp) == {}
      {
        SoundAt(w, sp, false, v);
        WorkedOffClean(v.hub.entries[sp], Live(v.shards, sp));
      }
    } else {
      var v := HarmfulHauntsAlone(w, sp);
    }
  }

  lemma HarmfulHauntsAlone(w: World, sp: Spoke) returns (v: World)
    requires Registered(w, sp) && Alone(w.hub.entries[sp])
    requires !EndsClean(w.hub.entries[sp], Live(w.shards, sp)) || !Quiet(w.left, sp)
    ensures Haunted(w, v, sp) && v.shared == w.shared
  {
    if !Quiet(w.left, sp) {
      var u, d := LeftStartFlies(w, sp);
      var x, f := DrainLine(u, sp);
      v := LastArrival(u, sp, x, f, d);
      LeadsFurther(w, u, v);
    } else {
      var f;
      v, f := DrainLine(w, sp);
    }
  }
}
