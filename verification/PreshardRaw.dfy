/**
 Reading the raw capture after a presharding run. The slices lie inside the capture's own directory, so the
 listing of the raw capture shows them too, and every request is read twice.
 */
module PreshardRaw {
  import opened Text
  import opened Options
  import opened Collections
  import opened Calendar
  import opened Capture
  import opened ObjectWriter
  import opened CaptureReader
  import opened RoundTrip
  import opened Sharding
  import opened Preshard

  // ---------------------------------------------------------------------
  // What a set of objects holds, whatever the order
  // ---------------------------------------------------------------------

  /** What each object yields. */
  type Part = string -> Yield

  function PartOf(accept: Acceptor, store: map<string, string>): Part {
    (key: string) => if key in store then FromSegments(accept, Segments(store[key])) else Yield([], true)
  }

  ghost function Contents(part: Part, keys: set<string>): map<string, multiset<CapturedRequest>> {
    map k | k in keys :: multiset(part(k).items)
  }

  ghost predicate Readable(part: Part, keys: set<string>) {
    forall k :: k in keys ==> !part(k).failed
  }

  ghost function KeySet(keys: seq<string>): set<string> {
    set k | k in keys
  }

  lemma FromFirst(accept: Acceptor, store: map<string, string>, keys: seq<string>)
    requires keys != []
    ensures var first := PartOf(accept, store)(keys[0]);
            FromObjects(accept, Fetch(store), keys)
            == if first.failed then first else Prepend(first.items, FromObjects(accept, Fetch(store), keys[1..]))
  {
  }

  lemma ContentsSet(part: Part, keys: set<string>, k: string)
    requires k !in keys
    ensures Contents(part, keys + {k}) == Contents(part, keys)[k := multiset(part(k).items)]
    ensures Contents(part, keys) - {k} == Contents(part, keys)
  {
  }

  lemma ContentsMore(part: Part, keys: set<string>, k: string)
    requires k !in keys
    ensures Bag(Contents(part, keys + {k})) == multiset(part(k).items) + Bag(Contents(part, keys))
  {
    ContentsSet(part, keys, k);
    BagUpdate(Contents(part, keys), k, multiset(part(k).items));
  }

  /** A read without an error hands out what its objects hold. */
  lemma {:induction false} ReadIsContents(accept: Acceptor, store: map<string, string>, keys: seq<string>)
    requires Distinct(keys)
    ensures var read, part := FromObjects(accept, Fetch(store), keys), PartOf(accept, store);
            && (!read.failed <==> Readable(part, KeySet(keys)))
            && (!read.failed ==> multiset(read.items) == Bag(Contents(part, KeySet(keys))))
  {
    var part := PartOf(accept, store);
    if keys == [] {
      assert Contents(part, KeySet(keys)) == map[];
    } else {
      var rest := KeySet(keys[1..]);
      assert KeySet(keys) == rest + {keys[0]} && keys[0] !in rest;
      FromFirst(accept, store, keys);
      ReadIsContents(accept, store, keys[1..]);
      ContentsMore(part, rest, keys[0]);
    }
  }

  lemma ContentsDisjoint(part: Part, a: set<string>, b: set<string>)
    requires a !! b
    ensures Bag(Contents(part, a + b)) == Bag(Contents(part, a)) + Bag(Contents(part, b))
  {
    BagDisjoint(Contents(part, a), Contents(part, b));
    assert Contents(part, a) + Contents(part, b) == Contents(part, a + b);
  }

  // ---------------------------------------------------------------------
  // One slice
  // ---------------------------------------------------------------------

  lemma {:induction false} CommitKeysDistinct(c: Config, os: seq<Object>)
    requires NumbersSeparate(c) && forall i :: 0 <= i < |os| ==> os[i].sequence == i + 1
    ensures Distinct(KeysOf(c, os))
  {
    forall i, j | 0 <= i < j < |os| ensures Key(c, os[i]) != Key(c, os[j]) {
      assert os[i].sequence != os[j].sequence;
    }
  }

  ghost predicate HeldIn(objects: map<string, string>, store: map<string, string>) {
    forall k :: k in objects ==> k in store && store[k] == objects[k]
  }

  /** The objects of a writer hold what it accepted. */
  lemma WriterContents(c: Config, w: Writer, store: map<string, string>, captureID: string)
    requires Valid(c, w) && NumbersSeparate(c) && w.pending == [] && w.strays == []
    requires Lawful(c.codec) && Scannable(c.codec, w.accepted)
    requires HeldIn(w.objects, store)
    ensures var part := PartOf(Accept(c.codec, NoFilter(captureID)), store);
            Readable(part, w.objects.Keys) && Bag(Contents(part, w.objects.Keys)) == multiset(w.accepted)
  {
    var keys, opts := KeysOf(c, w.commits), NoFilter(captureID);
    OnlyCommittedKeys(c, w);
    assert KeySet(keys) == w.objects.Keys;
    CommitKeysDistinct(c, w.commits);
    CommitsHold(c, w);
    HoldsInStore(c.codec, w.objects, store, keys, BatchesOf(w.commits));
    ReadObjects(c.codec, store, keys, BatchesOf(w.commits), opts);
    AllCommitted(w);
    MatchingEverything(w.accepted, captureID);
    ReadIsContents(Accept(c.codec, opts), store, keys);
  }

  // ---------------------------------------------------------------------
  // All slices
  // ---------------------------------------------------------------------

  ghost function SliceKeys(ws: seq<Writer>): set<string> {
    if ws == [] then {} else SliceKeys(ws[..|ws| - 1]) + ws[|ws| - 1].objects.Keys
  }

  lemma {:induction false} SliceKeysIn(ws: seq<Writer>, k: string)
    ensures k in SliceKeys(ws) <==> exists i :: 0 <= i < |ws| && k in ws[i].objects
  {
    if ws == [] {
    } else {
      var init := ws[..|ws| - 1];
      SliceKeysIn(init, k);
      assert forall i :: 0 <= i < |init| ==> init[i] == ws[i];
    }
  }

  ghost predicate KeysApart(ws: seq<Writer>) {
    forall i, j :: 0 <= i < j < |ws| ==> ws[i].objects.Keys !! ws[j].objects.Keys
  }

  ghost predicate ShareHeld(part: Part, w: Writer, source: seq<CapturedRequest>, keep: CapturedRequest -> bool) {
    Readable(part, w.objects.Keys) && Bag(Contents(part, w.objects.Keys)) == multiset(Filter(source, keep))
  }

  /** Each writer's objects hold its share. */
  ghost predicate SharesHeld(part: Part, ws: seq<Writer>, source: seq<CapturedRequest>,
                             keeps: seq<CapturedRequest -> bool>)
  {
    |ws| == |keeps| && forall i :: 0 <= i < |ws| ==> ShareHeld(part, ws[i], source, keeps[i])
  }

  lemma {:induction false} SlicesContents(part: Part, ws: seq<Writer>, source: seq<CapturedRequest>,
                                          keeps: seq<CapturedRequest -> bool>)
    requires SharesHeld(part, ws, source, keeps) && KeysApart(ws)
    ensures Readable(part, SliceKeys(ws)) && Bag(Contents(part, SliceKeys(ws))) == Union(source, keeps)
  {
    if ws == [] {
      assert Contents(part, {}) == map[];
    } else {
      var n := |ws| - 1;
      var init, last := ws[..n], ws[n].objects.Keys;
      assert forall i :: 0 <= i < n ==> init[i] == ws[i];
      assert ShareHeld(part, ws[n], source, keeps[n]);
      SlicesContents(part, init, source, keeps[..n]);
      forall k | k in SliceKeys(init) ensures k !in last {
        SliceKeysIn(init, k);
      }
      ContentsDisjoint(part, SliceKeys(init), last);
    }
  }

  lemma SliceHeld(s: Setup, ws: seq<Writer>, calls: seq<seq<Call>>, source: seq<CapturedRequest>, env: nat -> Env,
                  store: map<string, string>, i: nat)
    requires s.captureID != "" && SlicesComplete(SliceConfigs(s), s.start, ws, calls, source, env) && i < s.count
    requires Lawful(s.codec) && Scannable(s.codec, source)
    requires HeldIn(ws[i].objects, store)
    ensures ShareHeld(PartOf(Accept(s.codec, NoFilter(s.captureID)), store), ws[i], source, Owned(i, s.count))
  {
    var c, slice := SliceConfig(s, i), Slice(source, i, s.count);
    CloudNamesSeparate(c, SliceLocation(s, i));
    LifetimeValid(c, s.start, calls[i]);
    LifetimeAccepts(c, s.start, calls[i]);
    forall j | 0 <= j < |slice| ensures !TooLong(s.codec.encode(slice[j])) {
      FilterMembers(source, Owned(i, s.count), slice[j]);
    }
    WriterContents(c, ws[i], store, s.captureID);
  }

  lemma SlicesApart(s: Setup, ws: seq<Writer>)
    requires s.captureID != "" && InPlace(s, ws)
    ensures KeysApart(ws)
  {
    forall i, j, k | 0 <= i < j < |ws| && k in ws[i].objects.Keys && k in ws[j].objects.Keys ensures false {
      SlicePrefixesDisjoint(s.prefix, s.captureID, i, s.count, j, s.count, k);
    }
  }

  lemma AllSharesHeld(s: Setup, ws: seq<Writer>, calls: seq<seq<Call>>, source: seq<CapturedRequest>, env: nat -> Env,
                      store: map<string, string>, part: Part)
    requires s.captureID != "" && s.count >= 1 && SlicesComplete(SliceConfigs(s), s.start, ws, calls, source, env)
    requires Lawful(s.codec) && Scannable(s.codec, source) && HoldsAll(ws, store)
    requires part == PartOf(Accept(s.codec, NoFilter(s.captureID)), store)
    ensures SharesHeld(part, ws, source, Owners(s.count))
  {
    forall i | 0 <= i < |ws| ensures ShareHeld(part, ws[i], source, Owners(s.count)[i]) {
      SliceHeld(s, ws, calls, source, env, store, i);
    }
  }

  ghost predicate HoldsAll(ws: seq<Writer>, store: map<string, string>) {
    forall i :: 0 <= i < |ws| ==> HeldIn(ws[i].objects, store)
  }

  /** The slices of a run together hold the source. */
  lemma AllSlicesHold(s: Setup, ws: seq<Writer>, calls: seq<seq<Call>>, source: seq<CapturedRequest>, env: nat -> Env,
                      store: map<string, string>)
    requires s.captureID != "" && s.count >= 1 && SlicesComplete(SliceConfigs(s), s.start, ws, calls, source, env)
    requires Lawful(s.codec) && Scannable(s.codec, source) && HoldsAll(ws, store)
    ensures var part := PartOf(Accept(s.codec, NoFilter(s.captureID)), store);
            Readable(part, SliceKeys(ws)) && Bag(Contents(part, SliceKeys(ws))) == multiset(source)
  {
    var part := PartOf(Accept(s.codec, NoFilter(s.captureID)), store);
    AllSharesHeld(s, ws, calls, source, env, store, part);
    SlicesInPlace(s, ws, calls, source, env);
    SlicesApart(s, ws);
    SlicesContents(part, ws, source, Owners(s.count));
    SlicesPartition(source, s.count);
  }

  // ---------------------------------------------------------------------
  // The raw capture and its slices in one store
  // ---------------------------------------------------------------------

  /** The store of after the run: the one of before, and the slices. Of other objects none is capture data under
      the raw prefix, and no slice object was there before. */
  ghost predicate Extends(s: Setup, store0: map<string, string>, ws: seq<Writer>, store: map<string, string>) {
    && (forall k :: k in store0 ==> k in store && store[k] == store0[k])
    && HoldsAll(ws, store) && (forall k :: k in SliceKeys(ws) ==> k !in store0)
    && (forall k :: k in store && DataKey(k, BuildObjectPrefix(s.prefix, s.captureID)) ==>
          k in store0 || k in SliceKeys(ws))
  }

  ghost function DataKeys(store: map<string, string>, prefix: string): set<string> {
    set k | k in store && DataKey(k, prefix)
  }

  /** Slice objects are capture data under the raw prefix. */
  lemma SliceKeysAreRaw(s: Setup, ws: seq<Writer>, calls: seq<seq<Call>>, source: seq<CapturedRequest>, env: nat -> Env,
                        k: string)
    requires s.captureID != "" && SlicesComplete(SliceConfigs(s), s.start, ws, calls, source, env)
    requires k in SliceKeys(ws)
    ensures DataKey(k, BuildObjectPrefix(s.prefix, s.captureID))
  {
    SliceKeysIn(ws, k);
    var i :| 0 <= i < |ws| && k in ws[i].objects;
    var c := SliceConfig(s, i);
    CloudNamesSeparate(c, SliceLocation(s, i));
    LifetimeValid(c, s.start, calls[i]);
    CloudDataNames(c, SliceLocation(s, i));
    var j :| 0 <= j < |ws[i].commits| && k == Key(c, ws[i].commits[j]);
    assert DataKey(k, SlicePrefix(s, i));
    SliceDirectoryNested(s, i);
  }

  lemma SliceKeysStored(ws: seq<Writer>, store: map<string, string>)
    requires HoldsAll(ws, store)
    ensures forall k :: k in SliceKeys(ws) ==> k in store
  {
    forall k | k in SliceKeys(ws) ensures k in store {
      SliceKeysIn(ws, k);
      var i :| 0 <= i < |ws| && k in ws[i].objects;
      assert HeldIn(ws[i].objects, store);
    }
  }

  lemma KeysUnion(raw: string, store0: map<string, string>, slices: set<string>, store: map<string, string>)
    requires forall k :: k in store0 ==> k in store
    requires forall k :: k in slices ==> k in store && k !in store0 && DataKey(k, raw)
    requires forall k :: k in store && DataKey(k, raw) ==> k in store0 || k in slices
    ensures DataKeys(store, raw) == DataKeys(store0, raw) + slices && DataKeys(store0, raw) !! slices
  {
  }

  lemma KeysAfter(s: Setup, store0: map<string, string>, ws: seq<Writer>, calls: seq<seq<Call>>,
                  source: seq<CapturedRequest>, env: nat -> Env, store: map<string, string>)
    requires s.captureID != "" && SlicesComplete(SliceConfigs(s), s.start, ws, calls, source, env)
    requires Extends(s, store0, ws, store)
    ensures var raw := BuildObjectPrefix(s.prefix, s.captureID);
            DataKeys(store, raw) == DataKeys(store0, raw) + SliceKeys(ws) && DataKeys(store0, raw) !! SliceKeys(ws)
  {
    var raw := BuildObjectPrefix(s.prefix, s.captureID);
    forall k | k in SliceKeys(ws) ensures DataKey(k, raw) {
      SliceKeysAreRaw(s, ws, calls, source, env, k);
    }
    SliceKeysStored(ws, store);
    KeysUnion(raw, store0, SliceKeys(ws), store);
  }

  /** A read without bounds hands out what the data objects under the prefix hold. */
  lemma ReadBackIsContents(codec: Codec, prefix: string, store: map<string, string>, pages: seq<seq<string>>,
                           id: string)
    requires IsListing(pages, store)
    ensures var read := ReadBack(codec, prefix, store, pages, NoFilter(id));
            var part := PartOf(Accept(codec, NoFilter(id)), store);
            && (!read.failed <==> Readable(part, DataKeys(store, prefix)))
            && (!read.failed ==> multiset(read.items) == Bag(Contents(part, DataKeys(store, prefix))))
  {
    var opts := NoFilter(id);
    var keys := Sort(Keep(Flatten(pages), prefix, opts));
    KeepMembers(Flatten(pages), prefix, opts);
    SortSpec(Keep(Flatten(pages), prefix, opts));
    assert KeySet(keys) == DataKeys(store, prefix);
    forall i, j | 0 <= i < j < |keys| ensures keys[i] != keys[j] {
      LessIrreflexive(keys[i]);
    }
    ReadIsContents(Accept(codec, opts), store, keys);
  }

  /** Objects that are the same in both stores yield the same. */
  lemma SameContents(accept: Acceptor, store0: map<string, string>, store: map<string, string>, keys: set<string>)
    requires forall k :: k in keys ==> k in store0 && k in store && store[k] == store0[k]
    ensures Contents(PartOf(accept, store), keys) == Contents(PartOf(accept, store0), keys)
    ensures Readable(PartOf(accept, store), keys) <==> Readable(PartOf(accept, store0), keys)
  {
    forall k | k in keys ensures PartOf(accept, store)(k) == PartOf(accept, store0)(k) {}
  }

  /** After a run over the raw capture, reading the raw capture hands out every request twice. */
  lemma RawReadDoubles(s: Setup, ws: seq<Writer>, calls: seq<seq<Call>>, source: seq<CapturedRequest>, env: nat -> Env,
                       store0: map<string, string>, pages0: seq<seq<string>>,
                       store: map<string, string>, pages: seq<seq<string>>)
    requires s.captureID != "" && s.count >= 1 && SlicesComplete(SliceConfigs(s), s.start, ws, calls, source, env)
    requires Lawful(s.codec) && Scannable(s.codec, source)
    requires IsListing(pages0, store0) && IsListing(pages, store) && Extends(s, store0, ws, store)
    requires ReadRaw(s, store0, pages0) == Yield(source, false)
    ensures !ReadRaw(s, store, pages).failed
    ensures multiset(ReadRaw(s, store, pages).items) == multiset(source) + multiset(source)
  {
    var raw := BuildObjectPrefix(s.prefix, s.captureID);
    var accept := Accept(s.codec, NoFilter(s.captureID));
    var keys0, slices := DataKeys(store0, raw), SliceKeys(ws);
    ReadBackIsContents(s.codec, raw, store0, pages0, s.captureID);
    ReadBackIsContents(s.codec, raw, store, pages, s.captureID);
    SameContents(accept, store0, store, keys0);
    AllSlicesHold(s, ws, calls, source, env, store);
    KeysAfter(s, store0, ws, calls, source, env, store);
    ContentsDisjoint(PartOf(accept, store), keys0, slices);
  }

  /** A reader of the raw capture. */
  ghost function ReadRaw(s: Setup, store: map<string, string>, pages: seq<seq<string>>): Yield {
    ReadBack(s.codec, BuildObjectPrefix(s.prefix, s.captureID), store, pages, NoFilter(s.captureID))
  }

  /** So the raw capture reads as before if and only if there was nothing to preshard. */
  lemma RawReadUnchangedIff(s: Setup, ws: seq<Writer>, calls: seq<seq<Call>>, source: seq<CapturedRequest>,
                            env: nat -> Env, store0: map<string, string>, pages0: seq<seq<string>>,
                            store: map<string, string>, pages: seq<seq<string>>)
    requires s.captureID != "" && s.count >= 1 && SlicesComplete(SliceConfigs(s), s.start, ws, calls, source, env)
    requires Lawful(s.codec) && Scannable(s.codec, source)
    requires IsListing(pages0, store0) && IsListing(pages, store) && Extends(s, store0, ws, store)
    requires ReadRaw(s, store0, pages0) == Yield(source, false)
    ensures ReadRaw(s, store, pages) == ReadRaw(s, store0, pages0) <==> source == []
  {
    RawReadDoubles(s, ws, calls, source, env, store0, pages0, store, pages);
    var items := ReadRaw(s, store, pages).items;
    assert |multiset(items)| == |items| && |multiset(source) + multiset(source)| == 2 * |source|;
  }

  // ---------------------------------------------------------------------
  // One request, two slices
  // ---------------------------------------------------------------------

  function Small(codec: Codec): Setup {
    Setup("", "c", "a", 2, 0, 0, codec, 0)
  }

  function RawConfig(codec: Codec): Config {
    NewConfig(CloudObjectName(Location("", "c", "a")), 0, 0, codec)
  }

  const NOON: Env := Env(0, 0, 0, Stored)

  function Write(r: CapturedRequest): seq<Call> {
    [WriteCall(Some(r), NOON), FlushCall(NOON), CloseCall(NOON)]
  }

  function Nothing(): seq<Call> {
    [FlushCall(NOON), CloseCall(NOON)]
  }

  lemma WriteLife(c: Config, r: CapturedRequest)
    ensures var w := Lifetime(c, 0, Write(r));
            w.closed && w.strays == [] && Accepted(c, 0, Write(r)) == [r] && w.commits == [Object(0, 1, [r])]
            && w.objects == map[c.objectName(0, 1) := c.codec.encode(r) + "\n"]
  {
    var calls := Write(r);
    var one, two := calls[..1], calls[..2];
    assert calls[..|calls| - 1] == two && two[..|two| - 1] == one && one[..|one| - 1] == [];
    var line := c.codec.encode(r) + "\n";
    assert |line| > 0 && "" + line == line && [] + [r] == [r] && [] + [Object(0, 1, [r])] == [Object(0, 1, [r])];
    assert Lifetime(c, 0, one) == AfterWrite(c, ObjectWriter.Fresh(0), Some(r), NOON).0;
    assert Lifetime(c, 0, two) == AfterFlush(c, Lifetime(c, 0, one), NOON).0;
    assert Lifetime(c, 0, calls) == AfterClose(c, Lifetime(c, 0, two), NOON).0;
    assert one[0] == calls[0] && two[1] == calls[1];
    assert Accepted(c, 0, one) == [r];
    assert two[|two| - 1].FlushCall? && Accepted(c, 0, two) == Accepted(c, 0, one);
    assert Accepted(c, 0, calls) == Accepted(c, 0, two);
  }

  lemma NothingLife(c: Config)
    ensures var w := Lifetime(c, 0, Nothing());
            w.closed && w.strays == [] && Accepted(c, 0, Nothing()) == [] && w.objects == map[]
  {
    var calls := Nothing();
    var one := calls[..1];
    assert calls[..|calls| - 1] == one && one[..|one| - 1] == [];
    assert one[0] == calls[0] && Accepted(c, 0, one) == [];
    assert Lifetime(c, 0, one) == AfterFlush(c, ObjectWriter.Fresh(0), NOON).0;
    assert Lifetime(c, 0, calls) == AfterClose(c, Lifetime(c, 0, one), NOON).0;
  }

  function SmallCalls(r: CapturedRequest): seq<seq<Call>> {
    Ordered(ShardIndexOf(r.id, 2) == 0, Write(r), Nothing())
  }

  function Ordered<T>(first: bool, x: T, y: T): (s: seq<T>)
    ensures |s| == 2
  {
    if first then [x, y] else [y, x]
  }

  function SmallWriters(codec: Codec, r: CapturedRequest): seq<Writer> {
    var s := Small(codec);
    [Lifetime(SliceConfig(s, 0), 0, SmallCalls(r)[0]), Lifetime(SliceConfig(s, 1), 0, SmallCalls(r)[1])]
  }

  lemma SmallSlice(r: CapturedRequest, i: nat)
    requires i < 2
    ensures Slice([r], i, 2) == if ShardIndexOf(r.id, 2) == i then [r] else []
  {
    ExactlyOneOwner(r.id, 2);
    FilterSnoc([], r, Owned(i, 2));
    assert [] + [r] == [r] && Filter([], Owned(i, 2)) == [];
  }

  lemma SmallSliceIs(codec: Codec, r: CapturedRequest, i: nat)
    requires i < 2
    ensures var c, w, calls := SliceConfig(Small(codec), i), SmallWriters(codec, r)[i], SmallCalls(r)[i];
            SliceIs(c, 0, w, calls, Slice([r], i, 2)) && w.closed
  {
    ExactlyOneOwner(r.id, 2);
    SmallSlice(r, i);
    WriteLife(SliceConfig(Small(codec), i), r);
    NothingLife(SliceConfig(Small(codec), i));
  }

  function Still(): nat -> Env {
    (k: nat) => NOON
  }

  lemma StillBefore(calls: seq<Call>)
    requires forall j :: 0 <= j < |calls| ==> calls[j].env == NOON
    ensures CallsBefore(calls, Still(), 0)
  {
    assert Still()(0) == NOON;
    if ClockAdvances(Still()) {
      assert Printable(DateOf(Still()(0).name));
    }
  }

  lemma SmallBefore(r: CapturedRequest, i: nat)
    requires i < 2
    ensures CallsBefore(SmallCalls(r)[i], Still(), 0)
  {
    StillBefore(Write(r));
    StillBefore(Nothing());
    ChosenCalls(ShardIndexOf(r.id, 2) == 0, r, i);
  }

  lemma ChosenCalls(first: bool, r: CapturedRequest, i: nat)
    requires i < 2
    ensures Ordered(first, Write(r), Nothing())[i] in {Write(r), Nothing()}
  {
  }

  lemma SmallRun(codec: Codec, r: CapturedRequest)
    ensures SlicesComplete(SliceConfigs(Small(codec)), 0, SmallWriters(codec, r), SmallCalls(r), [r], Still())
  {
    var cs, ws, calls := SliceConfigs(Small(codec)), SmallWriters(codec, r), SmallCalls(r);
    forall i | 0 <= i < |cs|
      ensures SliceIs(cs[i], 0, ws[i], calls[i], Slice([r], i, |cs|)) && ws[i].closed
      ensures CallsBefore(calls[i], Still(), 0)
    {
      SmallSliceIs(codec, r, i);
      SmallBefore(r, i);
    }
    assert SlicesAre(cs, 0, ws, calls, [r], Still(), 0);
  }

  function RawObjects(codec: Codec, r: CapturedRequest): map<string, string> {
    Lifetime(RawConfig(codec), 0, Write(r)).objects
  }

  /** The raw capture of before the run reads back as the request. */
  lemma SmallRaw(codec: Codec, r: CapturedRequest, pages0: seq<seq<string>>)
    requires Lawful(codec) && Scannable(codec, [r]) && IsListing(pages0, RawObjects(codec, r))
    ensures ReadRaw(Small(codec), RawObjects(codec, r), pages0) == Yield([r], false)
  {
    var c, at, store := RawConfig(codec), Location("", "c", "a"), RawObjects(codec, r);
    WriteLife(c, r);
    CloudNamesSeparate(c, at);
    LifetimeValid(c, 0, Write(r));
    LifetimeAccepts(c, 0, Write(r));
    CloudDataNames(c, at);
    ReadsEverything(c, BuildObjectPrefix("", "c"), Lifetime(c, 0, Write(r)), store, pages0, "c");
  }

  /** The raw object lies in a directory named after a date, not in the one of the slices. */
  lemma RawOutside(codec: Codec, i: nat)
    ensures !HasPrefix(RawConfig(codec).objectName(0, 1), SlicePrefix(Small(codec), i))
  {
    var s, at := Small(codec), Location("", "c", "a");
    PrefixShape("", "c");
    SlicePrefixShape("", "c", i, 2);
    KeyShape(at, 0, 1);
    var key, p := RawConfig(codec).objectName(0, 1), SlicePrefix(s, i);
    assert BuildObjectPrefix("", "c") == "c/" && ShardsDirectory("", "c") == "c/shards/";
    var date := Format(DateOf(0));
    assert IsDigit(date[0]) by { assert date[0] == Fixed(DateOf(0).year, 4)[0]; }
    assert key[2] == date[0] && p[2] == 's';
  }

  lemma SmallExtends(codec: Codec, r: CapturedRequest, store: map<string, string>)
    requires var ws := SmallWriters(codec, r);
             store == RawObjects(codec, r) + ws[0].objects + ws[1].objects
    ensures Extends(Small(codec), RawObjects(codec, r), SmallWriters(codec, r), store)
  {
    var s, ws, store0 := Small(codec), SmallWriters(codec, r), RawObjects(codec, r);
    SmallRun(codec, r);
    SlicesInPlace(s, ws, SmallCalls(r), [r], Still());
    SlicesApart(s, ws);
    WriteLife(RawConfig(codec), r);
    forall k ensures k in SliceKeys(ws) <==> k in ws[0].objects || k in ws[1].objects {
      SliceKeysIn(ws, k);
    }
    forall k | k in SliceKeys(ws) ensures k !in store0 {
      RawOutside(codec, 0);
      RawOutside(codec, 1);
    }
    BothHeld(store0, ws, store);
  }

  lemma BothHeld(store0: map<string, string>, ws: seq<Writer>, store: map<string, string>)
    requires |ws| == 2 && KeysApart(ws) && store == store0 + ws[0].objects + ws[1].objects
    ensures HoldsAll(ws, store)
  {
    assert ws[0].objects.Keys !! ws[1].objects.Keys;
  }

  /** One request, presharded into two slices, is read twice from the raw capture. */
  lemma OneRequestReadTwice(codec: Codec, r: CapturedRequest, pages0: seq<seq<string>>, store: map<string, string>,
                            pages: seq<seq<string>>)
    requires Lawful(codec) && Scannable(codec, [r])
    requires var ws := SmallWriters(codec, r);
             store == RawObjects(codec, r) + ws[0].objects + ws[1].objects
    requires IsListing(pages0, RawObjects(codec, r)) && IsListing(pages, store)
    ensures ReadRaw(Small(codec), RawObjects(codec, r), pages0) == Yield([r], false)
    ensures multiset(ReadRaw(Small(codec), store, pages).items) == multiset{r, r}
  {
    SmallRun(codec, r);
    SmallRaw(codec, r, pages0);
    SmallExtends(codec, r, store);
    RawReadDoubles(Small(codec), SmallWriters(codec, r), SmallCalls(r), [r], Still(), RawObjects(codec, r), pages0,
                   store, pages);
  }
}
