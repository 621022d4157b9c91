/**
 What the queue of a registration leaves behind on its spoke. With one stream at a time the directives arrive
 in the order in which they were queued. Two streams share the queue, and what one of them has taken may
 arrive after anything the other one takes later.
 */
module LoadTestQueue {
  import opened LoadTest

  // ---------------------------------------------------------------------
  // Working off a queue in order
  // ---------------------------------------------------------------------

  ghost function Live(shards: map<(Spoke, nat), Shard>, sp: Spoke): set<nat> {
    set k | k in shards && k.0 == sp :: k.1
  }

  lemma {:induction false} AfterSnoc(q: seq<Directive>, d: Directive, live: set<nat>)
    ensures After(q + [d], live) == Effect(d, After(q, live))
  {
    if q == [] {
      assert [d][1..] == [];
    } else {
      assert (q + [d])[1..] == q[1..] + [d];
      AfterSnoc(q[1..], d, Effect(q[0], live));
    }
  }

  lemma {:induction false} AfterMonotone(q: seq<Directive>, fewer: set<nat>, more: set<nat>)
    requires fewer <= more
    ensures After(q, fewer) <= After(q, more)
  {
    if q == [] {
    } else {
      AfterMonotone(q[1..], Effect(q[0], fewer), Effect(q[0], more));
    }
  }

  /** Losing directives other than STOP leaves no more shards behind. */
  lemma {:induction false} AfterLoss(q: seq<Directive>, n: nat, live: set<nat>)
    requires n <= |q| && Stop !in q[..n]
    ensures After(q[n..], live) <= After(q, live)
  {
    if n == 0 {
    } else {
      assert q[0] in q[..n] && forall d :: d in q[1..][..n - 1] ==> d in q[..n];
      AfterLoss(q[1..], n - 1, live);
      assert q[1..][n - 1..] == q[n..];
      AfterMonotone(q[1..], live, Effect(q[0], live));
    }
  }

  /** Without a STOP in the queue nothing goes away. */
  lemma {:induction false} AfterGrows(q: seq<Directive>, live: set<nat>)
    requires Stop !in q
    ensures live <= After(q, live)
  {
    if q == [] {
    } else {
      assert q[0] in q && forall d :: d in q[1..] ==> d in q;
      AfterGrows(q[1..], Effect(q[0], live));
    }
  }

  lemma HandledLive(shards: map<(Spoke, nat), Shard>, sp: Spoke, d: Directive, now: nat, other: Spoke)
    ensures Live(Handled(shards, sp, d, now), other)
         == if other == sp then Effect(d, Live(shards, sp)) else Live(shards, other)
  {
    var next := Handled(shards, sp, d, now);
    match d
    case Start(i, n) =>
      assert forall k :: k in next <==> k in shards || k == (sp, i);
      assert (sp, i) in next;
    case Stop =>
    case Other =>
  }

  // ---------------------------------------------------------------------
  // One stream, or several
  // ---------------------------------------------------------------------

  ghost predicate Alone(e: Entry) {
    forall a, b :: a in e.streams && b in e.streams ==> a == b
  }

  ghost function Sole(streams: Streams): seq<Directive> {
    if streams == map[] then []
    else
      var id :| id in streams;
      streams[id]
  }

  /** What waits behind one stream, in order. */
  ghost function Line(e: Entry): seq<Directive> {
    Sole(e.streams) + e.buffer
  }

  /** In order, the queue leaves no shard. */
  ghost predicate EndsClean(e: Entry, live: set<nat>) {
    After(Line(e), live) == {}
  }

  ghost predicate HasStop(e: Entry) {
    Stop in e.buffer || exists id :: id in e.streams && Stop in e.streams[id]
  }

  /** In whatever order the streams deliver, the queue leaves no shard. */
  ghost predicate EndsCleanAnyhow(e: Entry, live: set<nat>) {
    Clear(e) && (live == {} || HasStop(e))
  }

  /** Nothing queued, and nothing on a stream. */
  ghost predicate WorkedOff(e: Entry) {
    e.buffer == [] && forall id :: id in e.streams ==> e.streams[id] == []
  }

  lemma WorkedOffClean(e: Entry, live: set<nat>)
    requires WorkedOff(e)
    ensures EndsClean(e, live) <==> live == {}
    ensures EndsCleanAnyhow(e, live) <==> live == {}
  {
    assert Line(e) == [];
  }

  // ---------------------------------------------------------------------
  // Steps of one registration
  // ---------------------------------------------------------------------

  /** A step of the registration or of its spoke that leaves a clean end clean. */
  ghost predicate Keeps(e: Entry, live: set<nat>, f: Entry, after: set<nat>) {
    && (Alone(e) && Alone(f) && EndsClean(e, live) ==> EndsClean(f, after))
    && (EndsCleanAnyhow(e, live) ==> EndsCleanAnyhow(f, after))
  }

  lemma PushKeeps(e: Entry, d: Directive, live: set<nat>)
    requires !d.Start?
    ensures Keeps(e, live, e.(buffer := e.buffer + [d]), live)
  {
    var f := e.(buffer := e.buffer + [d]);
    assert Line(f) == Line(e) + [d];
    AfterSnoc(Line(e), d, live);
    assert HasStop(e) ==> HasStop(f);
  }

  lemma FewerKeeps(e: Entry, live: set<nat>, fewer: set<nat>)
    requires fewer <= live
    ensures Keeps(e, live, e, fewer)
  {
    AfterMonotone(Line(e), fewer, live);
  }

  lemma WatchKeeps(e: Entry, id: nat, live: set<nat>)
    requires id !in e.streams
    ensures Keeps(e, live, WithStream(e, id, []), live)
  {
    var f := WithStream(e, id, []);
    if Alone(f) {
      assert id in f.streams && forall x :: x in e.streams ==> x in f.streams;
      assert e.streams == map[] && Line(f) == Line(e);
    }
    assert HasStop(e) ==> HasStop(f) by {
      if x :| x in e.streams && Stop in e.streams[x] {
        assert x in f.streams && Stop in f.streams[x];
      }
    }
  }

  lemma HangUpKeeps(e: Entry, id: nat, live: set<nat>)
    requires id in e.streams && e.streams[id] == []
    ensures Keeps(e, live, e.(streams := e.streams - {id}), live)
  {
    var f := e.(streams := e.streams - {id});
    if Alone(e) {
      assert f.streams == map[] && Line(f) == Line(e);
    }
    assert HasStop(e) ==> HasStop(f) by {
      if x :| x in e.streams && Stop in e.streams[x] {
        assert x in f.streams && Stop in f.streams[x];
      }
    }
  }

  lemma PopKeeps(e: Entry, id: nat, live: set<nat>)
    requires id in e.streams && e.buffer != []
    ensures Keeps(e, live, WithStream(e, id, e.streams[id] + [e.buffer[0]]).(buffer := e.buffer[1..]), live)
  {
    var d := e.buffer[0];
    var f := WithStream(e, id, e.streams[id] + [d]).(buffer := e.buffer[1..]);
    if Alone(e) {
      assert Line(f) == Line(e);
    }
    if EndsCleanAnyhow(e, live) {
      AfterSnoc(e.streams[id], d, {});
      if HasStop(e) {
        PopKeepsStop(e, id, f);
      }
    }
  }

  lemma PopKeepsStop(e: Entry, id: nat, f: Entry)
    requires id in e.streams && e.buffer != [] && HasStop(e)
    requires f == WithStream(e, id, e.streams[id] + [e.buffer[0]]).(buffer := e.buffer[1..])
    ensures HasStop(f)
  {
    if x :| x in e.streams && Stop in e.streams[x] {
      assert x in f.streams && Stop in f.streams[x];
    } else if e.buffer[0] == Stop {
      assert Stop in f.streams[id];
    } else {
      assert e.buffer == [e.buffer[0]] + f.buffer;
    }
  }

  lemma ReceiveKeeps(e: Entry, id: nat, live: set<nat>)
    requires id in e.streams && e.streams[id] != []
    ensures Keeps(e, live, WithStream(e, id, e.streams[id][1..]), Effect(e.streams[id][0], live))
  {
    var q := e.streams[id];
    var f := WithStream(e, id, q[1..]);
    if Alone(e) {
      assert Line(e)[0] == q[0] && Line(e)[1..] == Line(f);
    }
    if EndsCleanAnyhow(e, live) {
      ReceiveKeepsClear(e, id, f);
      if !q[0].Stop? {
        ReceiveKeepsStop(e, id, f, live);
      }
    }
  }

  lemma ReceiveKeepsClear(e: Entry, id: nat, f: Entry)
    requires id in e.streams && e.streams[id] != [] && f == WithStream(e, id, e.streams[id][1..]) && Clear(e)
    ensures Clear(f)
  {
    var q := e.streams[id];
    AfterMonotone(q[1..], {}, Effect(q[0], {}));
  }

  lemma ReceiveKeepsStop(e: Entry, id: nat, f: Entry, live: set<nat>)
    requires id in e.streams && e.streams[id] != [] && f == WithStream(e, id, e.streams[id][1..])
    requires EndsCleanAnyhow(e, live) && !e.streams[id][0].Stop?
    ensures Effect(e.streams[id][0], live) == {} || HasStop(f)
  {
    var q := e.streams[id];
    if q[0].Start? {
      if Stop !in q[1..] {
        AfterGrows(q[1..], Effect(q[0], {}));
      }
      assert Stop in f.streams[id];
    } else if x :| x in e.streams && Stop in e.streams[x] {
      assert e.streams[id] == [q[0]] + q[1..];
      assert x in f.streams && Stop in f.streams[x];
    }
  }

  lemma LoseKeeps(e: Entry, id: nat, n: nat, live: set<nat>)
    requires id in e.streams && n <= |e.streams[id]| && Stop !in e.streams[id][..n]
    ensures Keeps(e, live, WithStream(e, id, e.streams[id][n..]), live)
  {
    var q := e.streams[id];
    var f := WithStream(e, id, q[n..]);
    if Alone(e) {
      assert Line(e)[n..] == Line(f) && Line(e)[..n] == q[..n];
      AfterLoss(Line(e), n, live);
    }
    AfterLoss(q, n, {});
    if HasStop(e) && Stop !in e.buffer {
      var x :| x in e.streams && Stop in e.streams[x];
      assert q == q[..n] + q[n..];
      assert x in f.streams && Stop in f.streams[x];
    }
  }
}
