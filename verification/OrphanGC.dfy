/** The orphan collector on one spoke, over all replays in its cluster. */
module OrphanGC {
  import opened Text
  import opened Options

  const DEFAULT_ORPHAN_MIN_AGE: int := 120_000_000_000

  /** Replays are identified by namespace and name. */
  datatype Name = Name(namespace: string, name: string)

  /** `loadTest` is None for a replay a user created on their own. */
  datatype Replay = Replay(loadTest: Option<string>, created: int)

  function Key(namespace: string, name: string): string {
    namespace + "/" + name
  }

  function MinAge(configured: int): int {
    if configured <= 0 then DEFAULT_ORPHAN_MIN_AGE else configured
  }

  /** The load test a replay belongs to is not on the list, and the replay is old enough. */
  ghost predicate Orphan(id: Name, r: Replay, active: seq<Name>, minAge: int, now: int) {
    && r.loadTest.Some? && Name(id.namespace, r.loadTest.value) !in active
    && now - r.created >= (if minAge > 0 then minAge else 120_000_000_000)
  }

  ghost predicate NoSlash(s: string) {
    '/' !in s
  }

  /** Namespaces cannot contain a slash, so keys tell load tests apart. */
  lemma KeysAreExact(active: seq<Name>, keys: set<string>, id: Name)
    requires forall k :: k in keys <==> exists i :: 0 <= i < |active| && k == Key(active[i].namespace, active[i].name)
    requires NoSlash(id.namespace) && forall i :: 0 <= i < |active| ==> NoSlash(active[i].namespace)
    ensures Key(id.namespace, id.name) in keys <==> id in active
  {
    if Key(id.namespace, id.name) in keys {
      var i :| 0 <= i < |active| && Key(id.namespace, id.name) == Key(active[i].namespace, active[i].name);
      assert Key(id.namespace, id.name) == id.namespace + ['/'] + id.name;
      assert Key(active[i].namespace, active[i].name) == active[i].namespace + ['/'] + active[i].name;
      SplitAtSeparator(id.namespace, id.name, active[i].namespace, active[i].name, '/');
      assert active[i] == id;
    }
  }

  method ActiveKeys(active: seq<Name>) returns (keys: set<string>)
    ensures forall k :: k in keys <==> exists i :: 0 <= i < |active| && k == Key(active[i].namespace, active[i].name)
  {
    keys := {};
    for n := 0 to |active|
      invariant forall k :: k in keys <==> exists i :: 0 <= i < n && k == Key(active[i].namespace, active[i].name)
    {
      keys := keys + {Key(active[n].namespace, active[n].name)};
    }
  }

  /** What is left after a collection in which the API server refused to delete `refused`. */
  ghost predicate Swept(before: map<Name, Replay>, after: map<Name, Replay>, visited: seq<Name>, refused: set<Name>,
                        active: seq<Name>, minAge: int, now: int)
  {
    && (forall id :: id in after ==> id in before && after[id] == before[id])
    && (forall id :: id in before ==>
          (id !in after <==> id in visited && id !in refused && Orphan(id, before[id], active, minAge, now)))
  }

  class Cluster {
    var replays: map<Name, Replay>

    constructor (replays: map<Name, Replay>)
      ensures this.replays == replays
    {
      this.replays := replays;
    }

    /**
     `Collect`. `listed` is the list of replays in any order, or None when listing failed. Deletes exactly the
     orphans, except where the deletion itself is refused; replays without a load test are never touched.
     */
    method Collect(active: seq<Name>, minAge: int, listed: Option<seq<Name>>, refused: set<Name>, now: int)
      requires listed.Some? ==> forall id :: id in listed.value <==> id in replays
      requires forall i :: 0 <= i < |active| ==> NoSlash(active[i].namespace)
      requires forall id :: id in replays ==> NoSlash(id.namespace)
      modifies this
      ensures listed.None? ==> replays == old(replays)
      ensures listed.Some? ==> Swept(old(replays), replays, listed.value, refused, active, minAge, now)
      ensures forall id :: id in old(replays) && old(replays)[id].loadTest.None? ==> id in replays
    {
      var keys := ActiveKeys(active);
      if listed.None? { return; }
      var items := listed.value;
      ghost var before := replays;
      for n := 0 to |items|
        invariant Swept(before, replays, items[..n], refused, active, minAge, now)
      {
        var id := items[n];
        assert items[..n + 1] == items[..n] + [id] && id in before;
        var r := if id in replays then replays[id] else Replay(None, 0);
        if r.loadTest.Some? {
          KeysAreExact(active, keys, Name(id.namespace, r.loadTest.value));
          if Key(id.namespace, r.loadTest.value) !in keys && now - r.created >= MinAge(minAge) && id !in refused {
            replays := replays - {id};
          }
        }
      }
      assert items[..|items|] == items;
    }
  }
}
