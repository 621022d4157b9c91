/**
 The collector behind the protocol: what the orphan collector does to the replays in a spoke's cluster, seen from
 one load test, is the collection of the protocol.
 */
module LoadTestCollector {
  import opened Options
  import opened LoadTest
  import G = OrphanGC
  import H = HubServer
  import S = LoadTestShards

  /** The replay under which the cluster keeps shard i of the load test. */
  function NameOf(lt: G.Name, i: nat): G.Name {
    G.Name(lt.namespace, H.ReplayShardName(lt.name, i))
  }

  ghost predicate IsReplayOf(replays: map<G.Name, G.Replay>, lt: G.Name, i: nat) {
    NameOf(lt, i) in replays && replays[NameOf(lt, i)].loadTest == Some(lt.name)
  }

  /** The replays of the load test in the cluster are the shards on the spoke, as old as they are. */
  ghost predicate Keeps(replays: map<G.Name, G.Replay>, shards: map<(Spoke, nat), Shard>, sp: Spoke, lt: G.Name) {
    forall i: nat ::
      && ((sp, i) in shards <==> IsReplayOf(replays, lt, i))
      && ((sp, i) in shards ==> replays[NameOf(lt, i)].created == shards[(sp, i)].born)
  }

  /** The two notions of an orphan agree. */
  lemma SameOrphans(sp: Spoke, s: Shard, i: nat, lt: G.Name, active: seq<G.Name>, l: Listing, now: nat)
    requires l.shown <==> lt in active
    ensures G.Orphan(NameOf(lt, i), G.Replay(Some(lt.name), s.born), active, 0, now)
       <==> Orphaned((sp, i), s, sp, l, now)
  {
  }

  /** A collection in the cluster that nothing refuses, on a list that shows the load test or not, is the
      protocol's collection on that list. */
  lemma CollectRefines(w: World, v: World, sp: Spoke, lt: G.Name, before: map<G.Name, G.Replay>,
                       after: map<G.Name, G.Replay>, visited: seq<G.Name>, active: seq<G.Name>, l: Listing)
    requires Keeps(before, w.shards, sp, lt) && Lists(w, Collect(sp, l)) == Some(v)
    requires (forall id :: id in before ==> id in visited) && (l.shown <==> lt in active)
    requires G.Swept(before, after, visited, {}, active, 0, w.now)
    ensures Keeps(after, v.shards, sp, lt)
    ensures forall k :: k in w.shards && k.0 != sp ==> k in v.shards && v.shards[k] == w.shards[k]
  {
    forall i: nat
      ensures (sp, i) in v.shards <==> IsReplayOf(after, lt, i)
      ensures (sp, i) in v.shards ==> after[NameOf(lt, i)].created == v.shards[(sp, i)].born
    {
      if (sp, i) in w.shards {
        assert before[NameOf(lt, i)] == G.Replay(Some(lt.name), w.shards[(sp, i)].born);
        SameOrphans(sp, w.shards[(sp, i)], i, lt, active, l, w.now);
      }
    }
  }

  // ---------------------------------------------------------------------
  // The published list
  // ---------------------------------------------------------------------

  /** A spoke hears the list that is published at that moment, and only if it is registered. */
  lemma HeardWhenPublished(w: World, a: Action, v: World, sp: Spoke, l: Listing)
    requires Do(w, a) == Some(v) && (sp, l) in v.heard && (sp, l) !in w.heard
    ensures a == ByList(Hear(sp)) && w.hub.Up? && sp in w.hub.entries && w.published == Some(l)
  {
    match a
    case ByUser(u) =>
    case ByJob(j) => JobFrame(w, j, v);
    case ByHub(h) => RegistryFrame(w, h, v);
    case BySpoke(s) => RemoteFrame(w, s, v);
    case ByList(x) =>
  }

  /** A list is published by a running server, and does not outlive it. */
  ghost predicate ListFits(w: World) {
    w.published.Some? ==> w.hub.Up?
  }

  lemma StepKeepsList(w: World, a: Action, v: World)
    requires ListFits(w) && Do(w, a) == Some(v)
    ensures ListFits(v)
  {
    match a
    case ByUser(u) =>
    case ByJob(j) =>
      JobFrame(w, j, v);
      JobKeepsServer(w, j, v);
    case ByHub(h) =>
    case BySpoke(s) => RemoteFrame(w, s, v);
    case ByList(l) =>
  }

  lemma JobKeepsServer(w: World, j: JobAction, v: World)
    requires Reconcile(w, j) == Some(v)
    ensures v.hub.Up? <==> w.hub.Up?
  {
    if Open(w, j) == Some(v) || Prepare(w, j) == Some(v) {
      OpeningFrame(w, j, v);
    }
  }

  lemma ListHolds(steps: seq<Step>, w: World)
    requires Run(INIT, steps) == Some(w)
    ensures ListFits(w)
  {
    forall x, s | ListFits(x) && Next(x, s).Some? ensures ListFits(Next(x, s).value) {
      StepKeepsList(x, s.action, Do(x, s.action).value);
    }
    RunInduction(x => ListFits(x), s => true, INIT, steps, w);
  }

  predicate Publishes(a: Action) {
    a.ByList? && a.list.Publish?
  }

  lemma NothingNewHeard(w: World, a: Action, v: World)
    requires w.published.None? && Do(w, a) == Some(v) && !Publishes(a)
    ensures v.published.None? && v.heard == w.heard
  {
    match a
    case ByUser(u) =>
    case ByJob(j) => JobFrame(w, j, v);
    case ByHub(h) => RegistryFrame(w, h, v);
    case BySpoke(s) => RemoteFrame(w, s, v);
    case ByList(l) =>
  }

  lemma {:induction false} NothingHeardFrom(w: World, steps: seq<Step>, v: World)
    requires w.published.None? && Run(w, steps) == Some(v)
    requires forall i :: 0 <= i < |steps| ==> !Publishes(steps[i].action)
    ensures v.published.None? && v.heard == w.heard
  {
    if steps == [] {
    } else {
      var n := |steps| - 1;
      S.LastStep(w, steps, v);
      var u := S.At(w, steps, n);
      NothingHeardFrom(w, steps[..n], u);
      NothingNewHeard(u, steps[n].action, Do(u, steps[n].action).value);
    }
  }

  /** A server that starts anew answers heartbeats with no list until one is published on it: from any reachable
      state without a server, no spoke hears a list before the next one is published. */
  lemma NothingHeardBeforePublishing(before: seq<Step>, w: World, steps: seq<Step>, v: World)
    requires Run(INIT, before) == Some(w) && !w.hub.Up? && Run(w, steps) == Some(v)
    requires forall i :: 0 <= i < |steps| ==> !Publishes(steps[i].action)
    ensures v.heard == w.heard
  {
    ListHolds(before, w);
    NothingHeardFrom(w, steps, v);
  }
}
