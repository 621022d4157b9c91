/**
 Presharding and the options of a replay. A worker on a slice reads with bounds, filters and a limit of its own,
 and so does its twin that reads the whole capture and filters by hash. The limit is applied before the hash
 filter, and the bounds prune objects by the date in their key, which for a slice is the date of the presharding
 run. This module says for which options the two still replay the same.
 */
module PreshardOptions {
  import opened Text
  import opened Options
  import opened Collections
  import opened Calendar
  import opened Capture
  import opened ObjectWriter
  import opened CaptureReader
  import opened RoundTrip
  import opened Sharding
  import opened Preshard
  import PreshardRaw

  type Test = CapturedRequest -> bool

  // ---------------------------------------------------------------------
  // Filters
  // ---------------------------------------------------------------------

  lemma {:induction false} FilterAppend(a: seq<CapturedRequest>, b: seq<CapturedRequest>, keep: Test)
    ensures Filter(a + b, keep) == Filter(a, keep) + Filter(b, keep)
  {
    if b == [] {
      assert a + b == a;
    } else {
      var n := |b| - 1;
      FilterAppend(a, b[..n], keep);
      assert a + b == a + b[..n] + [b[n]] && b == b[..n] + [b[n]];
      FilterSnoc(a + b[..n], b[n], keep);
      FilterSnoc(b[..n], b[n], keep);
      Associate(Filter(a, keep), Filter(b[..n], keep), [b[n]]);
    }
  }

  lemma {:induction false} FilterAll(rs: seq<CapturedRequest>, keep: Test)
    requires forall r :: r in rs ==> keep(r)
    ensures Filter(rs, keep) == rs
  {
    if rs == [] {
    } else {
      FilterAll(rs[..|rs| - 1], keep);
    }
  }

  lemma FilterNone(rs: seq<CapturedRequest>, keep: Test)
    ensures Filter(rs, keep) == [] <==> forall r :: r in rs ==> !keep(r)
  {
    forall r ensures r in Filter(rs, keep) <==> r in rs && keep(r) {
      FilterMembers(rs, keep, r);
    }
    assert Filter(rs, keep) != [] ==> Filter(rs, keep)[0] in Filter(rs, keep);
  }

  lemma {:induction false} FilterLength(rs: seq<CapturedRequest>, keep: Test)
    ensures |Filter(rs, keep)| <= |rs|
    ensures |Filter(rs, keep)| == |rs| ==> forall r :: r in rs ==> keep(r)
  {
    if rs == [] {
    } else {
      FilterLength(rs[..|rs| - 1], keep);
    }
  }

  lemma {:induction false} FiltersCommute(rs: seq<CapturedRequest>, a: Test, b: Test)
    ensures Filter(Filter(rs, a), b) == Filter(Filter(rs, b), a)
  {
    if rs == [] {
    } else {
      var n := |rs| - 1;
      FiltersCommute(rs[..n], a, b);
      assert rs == rs[..n] + [rs[n]];
      FilterSnoc(rs[..n], rs[n], a);
      FilterSnoc(rs[..n], rs[n], b);
      FilterSnoc(Filter(rs[..n], a), rs[n], b);
      FilterSnoc(Filter(rs[..n], b), rs[n], a);
    }
  }

  /** A test that lets less through decides alone. */
  lemma {:induction false} FilterTwice(rs: seq<CapturedRequest>, a: Test, b: Test)
    requires forall r :: r in rs && b(r) ==> a(r)
    ensures Filter(Filter(rs, a), b) == Filter(rs, b)
  {
    if rs == [] {
    } else {
      var n := |rs| - 1;
      FilterTwice(rs[..n], a, b);
      assert rs == rs[..n] + [rs[n]];
      FilterSnoc(rs[..n], rs[n], a);
      FilterSnoc(rs[..n], rs[n], b);
      FilterSnoc(Filter(rs[..n], a), rs[n], b);
    }
  }

  lemma {:induction false} FilterSame(rs: seq<CapturedRequest>, a: Test, b: Test)
    requires forall r :: r in rs ==> (a(r) <==> b(r))
    ensures Filter(rs, a) == Filter(rs, b)
  {
    if rs == [] {
    } else {
      FilterSame(rs[..|rs| - 1], a, b);
    }
  }

  function MatchOf(opts: ReadOptions): Test {
    (r: CapturedRequest) => Matches(r, opts)
  }

  lemma {:induction false} MatchingIsFilter(rs: seq<CapturedRequest>, opts: ReadOptions)
    ensures Matching(rs, opts) == Filter(rs, MatchOf(opts))
  {
    if rs == [] {
    } else {
      var n := |rs| - 1;
      MatchingIsFilter(rs[..n], opts);
      assert rs == rs[..n] + [rs[n]];
      MatchingAppend(rs[..n], [rs[n]], opts);
      assert Matching([rs[n]][1..], opts) == [];
    }
  }

  lemma MatchingSlice(rs: seq<CapturedRequest>, opts: ReadOptions, index: int, count: int)
    ensures Matching(Slice(rs, index, count), opts) == Slice(Matching(rs, opts), index, count)
  {
    MatchingIsFilter(rs, opts);
    MatchingIsFilter(Slice(rs, index, count), opts);
    FiltersCommute(rs, Owned(index, count), MatchOf(opts));
  }

  // ---------------------------------------------------------------------
  // Limits
  // ---------------------------------------------------------------------

  /** How far a reader that passes on what `keep` keeps, up to the limit, gets. */
  function Stop(rs: seq<CapturedRequest>, keep: Test, limit: int): (q: nat)
    ensures q <= |rs|
  {
    if rs == [] then 0
    else
      var init := rs[..|rs| - 1];
      if 0 < limit <= |Filter(init, keep)| then Stop(init, keep, limit) else |rs|
  }

  /** What it passes on; it stops right after the last one. */
  lemma {:induction false} StopsThere(rs: seq<CapturedRequest>, keep: Test, limit: int)
    ensures var q := Stop(rs, keep, limit);
            && Limited(Filter(rs, keep), limit) == Filter(rs[..q], keep)
            && (0 < limit == |Filter(rs[..q], keep)| ==> q > 0 && keep(rs[q - 1]))
            && (q < |rs| ==> 0 < limit == |Filter(rs[..q], keep)|)
            && (limit > 0 ==> |Filter(rs[..q], keep)| <= limit)
  {
    if rs == [] {
    } else {
      var n := |rs| - 1;
      var init, q := rs[..n], Stop(rs, keep, limit);
      StopsThere(init, keep, limit);
      if q < |rs| {
        assert rs[..q] == init[..q];
      } else {
        assert rs[..q] == rs;
      }
    }
  }

  /** A worker of a slice against its twin, both behind tests of their own: `slice` for the slice's objects and
      `raw` for the capture's. */
  ghost predicate SameUnder(rs: seq<CapturedRequest>, mine: Test, slice: Test, raw: Test, limit: int) {
    Limited(Filter(Filter(rs, mine), slice), limit) == Filter(Limited(Filter(rs, raw), limit), mine)
  }

  /** Up to where the twin stops, the tests agree on the shard's requests; and either the shard's requests alone
      fill the limit, or the slice shows none of the rest. */
  ghost predicate Agreeing(rs: seq<CapturedRequest>, mine: Test, slice: Test, raw: Test, limit: int) {
    var q := Stop(rs, raw, limit);
    var seen, rest := Filter(rs[..q], mine), Filter(rs[q..], mine);
    && (forall r :: r in seen ==> (slice(r) <==> raw(r)))
    && (|Filter(seen, raw)| == limit || forall r :: r in rest ==> !slice(r))
  }

  /** The two sides, in terms of what comes before and after the place where the twin stops. */
  lemma Sides(rs: seq<CapturedRequest>, mine: Test, slice: Test, raw: Test, limit: int)
    ensures var q := Stop(rs, raw, limit);
            var seen, rest := Filter(rs[..q], mine), Filter(rs[q..], mine);
            && Filter(Filter(rs, mine), slice) == Filter(seen, slice) + Filter(rest, slice)
            && Filter(Limited(Filter(rs, raw), limit), mine) == Filter(seen, raw)
            && (limit > 0 ==> |Filter(seen, raw)| <= limit)
            && (rest != [] ==> limit > 0)
  {
    var q := Stop(rs, raw, limit);
    StopsThere(rs, raw, limit);
    assert rs == rs[..q] + rs[q..];
    FilterAppend(rs[..q], rs[q..], mine);
    FilterAppend(Filter(rs[..q], mine), Filter(rs[q..], mine), slice);
    FiltersCommute(rs[..q], raw, mine);
    FilterLength(Filter(rs[..q], raw), mine);
  }

  lemma AgreeingIsEnough(rs: seq<CapturedRequest>, mine: Test, slice: Test, raw: Test, limit: int)
    requires Agreeing(rs, mine, slice, raw, limit)
    ensures SameUnder(rs, mine, slice, raw, limit)
  {
    var q := Stop(rs, raw, limit);
    var seen, rest := Filter(rs[..q], mine), Filter(rs[q..], mine);
    Sides(rs, mine, slice, raw, limit);
    FilterSame(seen, slice, raw);
    FilterNone(rest, slice);
  }

  /** What the slice's worker replays starts with what passes the slice's test before the twin stops. */
  lemma SameMeansRawPasses(rs: seq<CapturedRequest>, mine: Test, slice: Test, raw: Test, limit: int)
    requires SameUnder(rs, mine, slice, raw, limit)
    ensures var seen := Filter(rs[..Stop(rs, raw, limit)], mine);
            forall r :: r in seen && raw(r) ==> slice(r)
  {
    var seen := Filter(rs[..Stop(rs, raw, limit)], mine);
    Sides(rs, mine, slice, raw, limit);
    forall r | r in seen && raw(r) ensures slice(r) {
      FilterMembers(seen, raw, r);
      assert r in Limited(Filter(Filter(rs, mine), slice), limit);
      FilterMembers(Filter(rs, mine), slice, r);
    }
  }

  /** A limit's worth of requests that pass both tests cannot come before the last that passes `raw`. */
  lemma PrefixPasses(rs: seq<CapturedRequest>, slice: Test, raw: Test, limit: nat)
    requires forall r :: r in rs && raw(r) ==> slice(r)
    requires limit <= |Filter(rs, slice)| && forall r :: r in Filter(rs, slice)[..limit] ==> raw(r)
    ensures |Filter(rs, raw)| >= limit
  {
    var both := Filter(rs, slice);
    FilterTwice(rs, slice, raw);
    assert both == both[..limit] + both[limit..];
    FilterAppend(both[..limit], both[limit..], raw);
    FilterAll(both[..limit], raw);
  }

  /** The last of the requests is the shard's, if all that pass `raw` are. */
  lemma LastIsMine(read: seq<CapturedRequest>, mine: Test, raw: Test)
    requires read != [] && raw(read[|read| - 1])
    requires |Filter(Filter(read, mine), raw)| == |Filter(read, raw)|
    ensures var last := read[|read| - 1];
            mine(last) && Filter(read, mine) == Filter(read[..|read| - 1], mine) + [last]
  {
    FiltersCommute(read, raw, mine);
    FilterLength(Filter(read, raw), mine);
    FilterMembers(read, raw, read[|read| - 1]);
  }

  /** The limit cannot be full before the last request that passes `raw`. */
  lemma TooMany(before: seq<CapturedRequest>, last: CapturedRequest, slice: Test, raw: Test, limit: nat)
    requires forall r :: r in before + [last] && raw(r) ==> slice(r)
    requires raw(last) && limit == |Filter(before + [last], raw)|
    ensures !(limit < |Filter(before + [last], slice)|
              && Filter(before + [last], slice)[..limit] == Filter(before + [last], raw))
  {
    var seen := before + [last];
    FilterSnoc(before, last, slice);
    FilterSnoc(before, last, raw);
    if limit < |Filter(seen, slice)| && Filter(seen, slice)[..limit] == Filter(seen, raw) {
      assert Filter(before, slice)[..limit] == Filter(seen, raw);
      forall r | r in Filter(seen, raw) ensures raw(r) { FilterMembers(seen, raw, r); }
      assert forall r :: r in before ==> r in seen;
      PrefixPasses(before, slice, raw, limit);
      assert false;
    }
  }

  lemma Lengths(read: seq<CapturedRequest>, mine: Test, slice: Test, raw: Test)
    requires forall r :: r in Filter(read, mine) && raw(r) ==> slice(r)
    ensures |Filter(Filter(read, mine), raw)| <= |Filter(Filter(read, mine), slice)|
    ensures |Filter(Filter(read, mine), raw)| <= |Filter(read, raw)|
  {
    var seen := Filter(read, mine);
    FilterTwice(seen, slice, raw);
    FilterLength(Filter(seen, slice), raw);
    FiltersCommute(read, raw, mine);
    FilterLength(Filter(read, raw), mine);
  }

  /** Of what the twin reads, no more of the shard's requests pass `slice` than pass `raw`. */
  lemma NotMore(read: seq<CapturedRequest>, more: seq<CapturedRequest>, mine: Test, slice: Test, raw: Test, limit: int)
    requires forall r :: r in Filter(read, mine) && raw(r) ==> slice(r)
    requires 0 < limit == |Filter(read, raw)| ==> read != [] && raw(read[|read| - 1])
    requires limit > 0 ==> |Filter(read, raw)| <= limit
    requires Limited(Filter(Filter(read, mine), slice) + more, limit) == Filter(Filter(read, mine), raw)
    ensures |Filter(Filter(read, mine), slice)| == |Filter(Filter(read, mine), raw)|
  {
    var seen := Filter(read, mine);
    Lengths(read, mine, slice, raw);
    if |Filter(seen, slice)| > |Filter(seen, raw)| {
      LastIsMine(read, mine, raw);
      TooMany(Filter(read[..|read| - 1], mine), read[|read| - 1], slice, raw, limit);
      assert false;
    }
  }

  /** The tests decide alike on what passes either of them, if equally many pass. */
  lemma EquallyMany(rs: seq<CapturedRequest>, slice: Test, raw: Test)
    requires forall r :: r in rs && raw(r) ==> slice(r)
    requires |Filter(rs, slice)| == |Filter(rs, raw)|
    ensures forall r :: r in rs ==> (slice(r) <==> raw(r))
  {
    FilterTwice(rs, slice, raw);
    FilterLength(Filter(rs, slice), raw);
    forall r | r in rs && slice(r) ensures raw(r) {
      FilterMembers(rs, slice, r);
    }
  }

  lemma SameUnderIff(rs: seq<CapturedRequest>, mine: Test, slice: Test, raw: Test, limit: int)
    ensures SameUnder(rs, mine, slice, raw, limit) <==> Agreeing(rs, mine, slice, raw, limit)
  {
    if Agreeing(rs, mine, slice, raw, limit) {
      AgreeingIsEnough(rs, mine, slice, raw, limit);
    }
    if SameUnder(rs, mine, slice, raw, limit) {
      var q := Stop(rs, raw, limit);
      var seen, rest := Filter(rs[..q], mine), Filter(rs[q..], mine);
      Sides(rs, mine, slice, raw, limit);
      SameMeansRawPasses(rs, mine, slice, raw, limit);
      StopsThere(rs, raw, limit);
      NotMore(rs[..q], Filter(rest, slice), mine, slice, raw, limit);
      EquallyMany(seen, slice, raw);
      FilterNone(rest, slice);
    }
  }

  // ---------------------------------------------------------------------
  // Bounds
  // ---------------------------------------------------------------------

  /** Everything in an object, read without options. */
  ghost function AllIn(codec: Codec, store: map<string, string>, key: string): seq<CapturedRequest> {
    PreshardRaw.PartOf(Accept(codec, NoFilter("")), store)(key).items
  }

  /** The test says of every matching request under the prefix whether the object it lies in is dated within the
      bounds. */
  ghost predicate Tells(test: Test, codec: Codec, prefix: string, store: map<string, string>, opts: ReadOptions) {
    forall key, r :: key in store && DataKey(key, prefix) && r in AllIn(codec, store, key) && Matches(r, opts) ==>
      (test(r) <==> InTime(opts)(key))
  }

  ghost predicate LiesIn(r: CapturedRequest, codec: Codec, prefix: string, store: map<string, string>, key: string) {
    key in store && DataKey(key, prefix) && r in AllIn(codec, store, key)
  }

  /** No matching request lies both in an object within the bounds and in one outside them. */
  ghost predicate OneSided(codec: Codec, prefix: string, store: map<string, string>, opts: ReadOptions) {
    forall r, a, b :: LiesIn(r, codec, prefix, store, a) && LiesIn(r, codec, prefix, store, b) && Matches(r, opts) ==>
      InTime(opts)(a) == InTime(opts)(b)
  }

  /** The request lies in an object within the bounds. */
  ghost function Within(codec: Codec, prefix: string, store: map<string, string>, opts: ReadOptions): Test {
    (r: CapturedRequest) => exists key :: LiesIn(r, codec, prefix, store, key) && InTime(opts)(key)
  }

  lemma WithinTells(codec: Codec, prefix: string, store: map<string, string>, opts: ReadOptions)
    requires OneSided(codec, prefix, store, opts)
    ensures Tells(Within(codec, prefix, store, opts), codec, prefix, store, opts)
  {
    var test := Within(codec, prefix, store, opts);
    forall key, r | key in store && DataKey(key, prefix) && r in AllIn(codec, store, key) && Matches(r, opts)
      ensures test(r) <==> InTime(opts)(key)
    {
      assert LiesIn(r, codec, prefix, store, key);
    }
  }

  lemma {:induction false} SegmentsMatching(codec: Codec, opts: ReadOptions, segments: seq<string>)
    ensures var all := FromSegments(Accept(codec, NoFilter("")), segments);
            FromSegments(Accept(codec, opts), segments) == Yield(Matching(all.items, opts), all.failed)
  {
    if segments == [] {
    } else {
      SegmentsMatching(codec, opts, segments[1..]);
      var rest := FromSegments(Accept(codec, NoFilter("")), segments[1..]).items;
      match codec.decode(Token(segments[0]))
      case None =>
      case Some(r) => assert ([r] + rest)[1..] == rest;
    }
  }

  ghost predicate TellsOf(test: Test, codec: Codec, store: map<string, string>, opts: ReadOptions, keys: seq<string>) {
    forall key, r :: key in keys && r in AllIn(codec, store, key) && Matches(r, opts) ==>
      (test(r) <==> InTime(opts)(key))
  }

  /** An object before the rest of what is read. */
  lemma OneObject(test: Test, codec: Codec, store: map<string, string>, opts: ReadOptions, key: string,
                  rest: seq<CapturedRequest>)
    requires TellsOf(test, codec, store, opts, [key])
    ensures var all, later := AllIn(codec, store, key), Filter(Matching(rest, opts), test);
            Filter(Matching(all + rest, opts), test)
            == if InTime(opts)(key) then Matching(all, opts) + later else later
  {
    var all := AllIn(codec, store, key);
    MatchingAppend(all, rest, opts);
    FilterAppend(Matching(all, opts), Matching(rest, opts), test);
    MatchingIsFilter(all, opts);
    forall r | r in Matching(all, opts) ensures test(r) <==> InTime(opts)(key) {
      FilterMembers(all, MatchOf(opts), r);
      assert key in [key];
    }
    FilterAll(Matching(all, opts), if InTime(opts)(key) then test else (r: CapturedRequest) => true);
    FilterNone(Matching(all, opts), test);
  }

  /** Reading the objects within the bounds gives the matching requests that pass the test. */
  lemma {:induction false} BoundedObjects(test: Test, codec: Codec, store: map<string, string>, opts: ReadOptions,
                                          keys: seq<string>)
    requires TellsOf(test, codec, store, opts, keys)
    requires !FromObjects(Accept(codec, NoFilter("")), Fetch(store), keys).failed
    ensures FromObjects(Accept(codec, opts), Fetch(store), Select(keys, InTime(opts)))
         == Yield(Filter(Matching(FromObjects(Accept(codec, NoFilter("")), Fetch(store), keys).items, opts), test),
                  false)
  {
    var whole := Accept(codec, NoFilter(""));
    if keys == [] {
    } else {
      var first, rest := AllIn(codec, store, keys[0]), FromObjects(whole, Fetch(store), keys[1..]);
      PreshardRaw.FromFirst(whole, store, keys);
      assert forall key :: key in keys[1..] ==> key in keys;
      BoundedObjects(test, codec, store, opts, keys[1..]);
      OneObject(test, codec, store, opts, keys[0], rest.items);
      FirstBounded(codec, store, opts, keys);
    }
  }

  /** The first object is read with the options, or pruned. */
  lemma FirstBounded(codec: Codec, store: map<string, string>, opts: ReadOptions, keys: seq<string>)
    requires keys != [] && !PreshardRaw.PartOf(Accept(codec, NoFilter("")), store)(keys[0]).failed
    ensures var rest := FromObjects(Accept(codec, opts), Fetch(store), Select(keys[1..], InTime(opts)));
            FromObjects(Accept(codec, opts), Fetch(store), Select(keys, InTime(opts)))
            == if InTime(opts)(keys[0]) then Prepend(Matching(AllIn(codec, store, keys[0]), opts), rest) else rest
  {
    var kept := Select(keys[1..], InTime(opts));
    SegmentsMatching(codec, opts, Segments(store[keys[0]]));
    if InTime(opts)(keys[0]) {
      assert Select(keys, InTime(opts)) == [keys[0]] + kept && ([keys[0]] + kept)[1..] == kept;
      PreshardRaw.FromFirst(Accept(codec, opts), store, [keys[0]] + kept);
    } else {
      assert Select(keys, InTime(opts)) == kept;
    }
  }

  /** The objects that a reader with bounds opens. */
  lemma BoundedKeys(prefix: string, store: map<string, string>, pages: seq<seq<string>>, opts: ReadOptions)
    requires IsListing(pages, store)
    ensures var all := Sort(Keep(Flatten(pages), prefix, NoFilter("")));
            && Sort(Keep(Flatten(pages), prefix, opts)) == Select(all, InTime(opts))
            && forall key :: key in all ==> key in store && DataKey(key, prefix)
  {
    var keys := Flatten(pages);
    KeepMembers(keys, prefix, NoFilter(""));
    KeepMembers(keys, prefix, opts);
    SortSpec(Keep(keys, prefix, NoFilter("")));
    SortSpec(Keep(keys, prefix, opts));
    var all := Sort(Keep(keys, prefix, NoFilter("")));
    SelectAscending(all, InTime(opts));
    SelectMembers(all, InTime(opts));
    AscendingUnique(Sort(Keep(keys, prefix, opts)), Select(all, InTime(opts)));
  }

  lemma SameReader(codec: Codec, prefix: string, store: map<string, string>, pages: seq<seq<string>>, a: ReadOptions,
                   id: string)
    ensures ReadBack(codec, prefix, store, pages, a.(captureID := id)) == ReadBack(codec, prefix, store, pages, a)
  {
    var b := a.(captureID := id);
    forall key ensures Wanted(prefix, a)(key) == Wanted(prefix, b)(key) {}
    SameSelection(Flatten(pages), Wanted(prefix, a), Wanted(prefix, b));
    forall line ensures Accept(codec, a)(line) == Accept(codec, b)(line) {
      match codec.decode(Token(line))
      case None =>
      case Some(r) => assert Matches(r, a) == Matches(r, b);
    }
    SameAcceptor(Accept(codec, a), Accept(codec, b), Fetch(store), Sort(Keep(Flatten(pages), prefix, a)));
  }

  lemma {:induction false} SameSelection(keys: seq<string>, a: string -> bool, b: string -> bool)
    requires forall key :: a(key) == b(key)
    ensures Select(keys, a) == Select(keys, b)
  {
    if keys == [] {
    } else {
      SameSelection(keys[1..], a, b);
    }
  }

  lemma {:induction false} SameLines(a: Acceptor, b: Acceptor, segments: seq<string>)
    requires forall line :: a(line) == b(line)
    ensures FromSegments(a, segments) == FromSegments(b, segments)
  {
    if segments == [] {
    } else {
      SameLines(a, b, segments[1..]);
    }
  }

  lemma {:induction false} SameAcceptor(a: Acceptor, b: Acceptor, fetch: Fetcher, keys: seq<string>)
    requires forall line :: a(line) == b(line)
    ensures FromObjects(a, fetch, keys) == FromObjects(b, fetch, keys)
  {
    if keys == [] {
    } else if fetch(keys[0]).Some? {
      SameLines(a, b, fetch(keys[0]).value);
      SameAcceptor(a, b, fetch, keys[1..]);
    }
  }

  /** A capture that can be read at all, read with any options. */
  lemma BoundedRead(test: Test, codec: Codec, prefix: string, store: map<string, string>, pages: seq<seq<string>>,
                    opts: ReadOptions)
    requires IsListing(pages, store) && Tells(test, codec, prefix, store, opts)
    requires !ReadBack(codec, prefix, store, pages, NoFilter("")).failed
    ensures ReadBack(codec, prefix, store, pages, opts)
         == Yield(Filter(Matching(ReadBack(codec, prefix, store, pages, NoFilter("")).items, opts), test), false)
  {
    BoundedKeys(prefix, store, pages, opts);
    BoundedObjects(test, codec, store, opts, Sort(Keep(Flatten(pages), prefix, NoFilter(""))));
  }

  // ---------------------------------------------------------------------
  // The two workers
  // ---------------------------------------------------------------------

  /** A presharding run over a readable capture in `store0`, and what it left in `store`. */
  ghost predicate Presharded(s: Setup, ws: seq<Writer>, calls: seq<seq<Call>>, source: seq<CapturedRequest>,
                             env: nat -> Env, store0: map<string, string>, pages0: seq<seq<string>>,
                             store: map<string, string>, pages: seq<seq<string>>)
  {
    && ReadBack(s.codec, BuildObjectPrefix(s.prefix, s.captureID), store0, pages0, NoFilter("")) == Yield(source, false)
    && IsListing(pages0, store0)
    && s.captureID != "" && SlicesComplete(SliceConfigs(s), s.start, ws, calls, source, env)
    && ClockAdvances(env) && Lawful(s.codec) && Scannable(s.codec, source)
    && HoldsSlices(s, ws, store) && IsListing(pages, store)
  }

  lemma OwnReplay(s: Setup, ws: seq<Writer>, calls: seq<seq<Call>>, source: seq<CapturedRequest>, env: nat -> Env,
                  store0: map<string, string>, pages0: seq<seq<string>>, store: map<string, string>,
                  pages: seq<seq<string>>, i: nat, opts: ReadOptions, slice: Test)
    requires Presharded(s, ws, calls, source, env, store0, pages0, store, pages)
    requires i < s.count && ws[i].sequence < 1_000_000 && Tells(slice, s.codec, SlicePrefix(s, i), store, opts)
    ensures Replayed(s.codec, s.prefix, ReplayInput(s.captureID, Some(ShardSpec(i, s.count, true))), opts, store, pages)
         == Limited(Filter(Filter(Matching(source, opts), Owned(i, s.count)), slice), opts.limit)
  {
    var id := ShardSliceCaptureID(s.captureID, i, s.count);
    SliceReadsFiltered(s, ws, calls, source, env, store, pages, i);
    SameReader(s.codec, SlicePrefix(s, i), store, pages, NoFilter(""), id);
    SameReader(s.codec, SlicePrefix(s, i), store, pages, opts, id);
    BoundedRead(slice, s.codec, SlicePrefix(s, i), store, pages, opts);
    MatchingSlice(source, opts, i, s.count);
    NoFilterKeepsAll(Limited(ReadBack(s.codec, SlicePrefix(s, i), store, pages, opts).items, opts.limit));
  }

  lemma TwinReplay(s: Setup, source: seq<CapturedRequest>, store0: map<string, string>, pages0: seq<seq<string>>,
                   i: nat, opts: ReadOptions, raw: Test)
    requires ReadBack(s.codec, BuildObjectPrefix(s.prefix, s.captureID), store0, pages0, NoFilter(""))
          == Yield(source, false)
    requires IsListing(pages0, store0)
    requires Tells(raw, s.codec, BuildObjectPrefix(s.prefix, s.captureID), store0, opts)
    ensures Replayed(s.codec, s.prefix, ReplayInput(s.captureID, Some(ShardSpec(i, s.count, false))), opts, store0,
                     pages0)
         == Filter(Limited(Filter(Matching(source, opts), raw), opts.limit), Owned(i, s.count))
  {
    var prefix := BuildObjectPrefix(s.prefix, s.captureID);
    SameReader(s.codec, prefix, store0, pages0, opts, s.captureID);
    BoundedRead(raw, s.codec, prefix, store0, pages0, opts);
  }

  ghost predicate Agree(s: Setup, store0: map<string, string>, pages0: seq<seq<string>>, store: map<string, string>,
                        pages: seq<seq<string>>, i: nat, opts: ReadOptions)
  {
    var own := ReplayInput(s.captureID, Some(ShardSpec(i, s.count, true)));
    var twin := ReplayInput(s.captureID, Some(ShardSpec(i, s.count, false)));
    Replayed(s.codec, s.prefix, own, opts, store, pages) == Replayed(s.codec, s.prefix, twin, opts, store0, pages0)
  }

  lemma ToldAgreeIff(s: Setup, ws: seq<Writer>, calls: seq<seq<Call>>, source: seq<CapturedRequest>, env: nat -> Env,
                     store0: map<string, string>, pages0: seq<seq<string>>, store: map<string, string>,
                     pages: seq<seq<string>>, i: nat, opts: ReadOptions, slice: Test, raw: Test)
    requires Presharded(s, ws, calls, source, env, store0, pages0, store, pages)
    requires i < s.count && ws[i].sequence < 1_000_000
    requires Tells(slice, s.codec, SlicePrefix(s, i), store, opts)
    requires Tells(raw, s.codec, BuildObjectPrefix(s.prefix, s.captureID), store0, opts)
    ensures Agree(s, store0, pages0, store, pages, i, opts)
       <==> Agreeing(Matching(source, opts), Owned(i, s.count), slice, raw, opts.limit)
  {
    OwnReplay(s, ws, calls, source, env, store0, pages0, store, pages, i, opts, slice);
    TwinReplay(s, source, store0, pages0, i, opts, raw);
    SameUnderIff(Matching(source, opts), Owned(i, s.count), slice, raw, opts.limit);
  }

  /** With any bounds, filters and limit, the two workers replay the same if and only if, among the shard's
      matching requests, those the twin gets to lie on the same side of the bounds in both places, and the slice
      shows none of the others or the limit is full by then. */
  lemma WorkersAgreeIff(s: Setup, ws: seq<Writer>, calls: seq<seq<Call>>, source: seq<CapturedRequest>,
                        env: nat -> Env, store0: map<string, string>, pages0: seq<seq<string>>,
                        store: map<string, string>, pages: seq<seq<string>>, i: nat, opts: ReadOptions)
    requires Presharded(s, ws, calls, source, env, store0, pages0, store, pages)
    requires i < s.count && ws[i].sequence < 1_000_000
    requires OneSided(s.codec, SlicePrefix(s, i), store, opts)
    requires OneSided(s.codec, BuildObjectPrefix(s.prefix, s.captureID), store0, opts)
    ensures var slice := Within(s.codec, SlicePrefix(s, i), store, opts);
            var raw := Within(s.codec, BuildObjectPrefix(s.prefix, s.captureID), store0, opts);
            Agree(s, store0, pages0, store, pages, i, opts)
            <==> Agreeing(Matching(source, opts), Owned(i, s.count), slice, raw, opts.limit)
  {
    var prefix := BuildObjectPrefix(s.prefix, s.captureID);
    WithinTells(s.codec, SlicePrefix(s, i), store, opts);
    WithinTells(s.codec, prefix, store0, opts);
    ToldAgreeIff(s, ws, calls, source, env, store0, pages0, store, pages, i, opts,
      Within(s.codec, SlicePrefix(s, i), store, opts), Within(s.codec, prefix, store0, opts));
  }

  function Always(): Test {
    (r: CapturedRequest) => true
  }

  /** No limit within reach, or the first `limit` are all the shard's, or all of the shard's are among them. */
  ghost predicate LimitHarmless(rs: seq<CapturedRequest>, mine: Test, limit: int) {
    || limit <= 0 || |rs| <= limit
    || (forall r :: r in rs[..limit] ==> mine(r))
    || (forall r :: r in rs[limit..] ==> !mine(r))
  }

  lemma StopAlways(rs: seq<CapturedRequest>, limit: int)
    ensures Stop(rs, Always(), limit) == if 0 < limit < |rs| then limit else |rs|
  {
    var q := Stop(rs, Always(), limit);
    StopsThere(rs, Always(), limit);
    FilterAll(rs, Always());
    FilterAll(rs[..q], Always());
    assert |rs[..q]| == q;
  }

  lemma AgreeingAlways(rs: seq<CapturedRequest>, mine: Test, limit: int)
    ensures Agreeing(rs, mine, Always(), Always(), limit) <==> LimitHarmless(rs, mine, limit)
  {
    var q := Stop(rs, Always(), limit);
    StopAlways(rs, limit);
    var seen, rest := Filter(rs[..q], mine), Filter(rs[q..], mine);
    FilterAll(seen, Always());
    FilterNone(rest, Always());
    FilterNone(rs[q..], mine);
    FilterLength(rs[..q], mine);
    if forall r :: r in rs[..q] ==> mine(r) {
      FilterAll(rs[..q], mine);
    }
    assert rest == [] <==> forall r :: r in rest ==> !Always()(r);
  }

  /** Without time bounds only the limit can set the two apart: the twin applies it to the whole capture, the
      worker on the slice to its own share. */
  lemma UnboundedWorkersAgreeIff(s: Setup, ws: seq<Writer>, calls: seq<seq<Call>>, source: seq<CapturedRequest>,
                                 env: nat -> Env, store0: map<string, string>, pages0: seq<seq<string>>,
                                 store: map<string, string>, pages: seq<seq<string>>, i: nat, opts: ReadOptions)
    requires Presharded(s, ws, calls, source, env, store0, pages0, store, pages)
    requires i < s.count && ws[i].sequence < 1_000_000 && opts.start == 0 && opts.end == 0
    ensures Agree(s, store0, pages0, store, pages, i, opts)
       <==> LimitHarmless(Matching(source, opts), Owned(i, s.count), opts.limit)
  {
    ToldAgreeIff(s, ws, calls, source, env, store0, pages0, store, pages, i, opts, Always(), Always());
    AgreeingAlways(Matching(source, opts), Owned(i, s.count), opts.limit);
  }

  /** Slices written on a date outside the bounds are not read at all, so the worker agrees with its twin only
      when that replays nothing either. */
  lemma LateSlicesAreEmpty(s: Setup, ws: seq<Writer>, calls: seq<seq<Call>>, source: seq<CapturedRequest>,
                           env: nat -> Env, store0: map<string, string>, pages0: seq<seq<string>>,
                           store: map<string, string>, pages: seq<seq<string>>, i: nat, opts: ReadOptions)
    requires Presharded(s, ws, calls, source, env, store0, pages0, store, pages)
    requires i < s.count && ws[i].sequence < 1_000_000
    requires forall key :: key in store && DataKey(key, SlicePrefix(s, i)) ==> !InTime(opts)(key)
    ensures Replayed(s.codec, s.prefix, ReplayInput(s.captureID, Some(ShardSpec(i, s.count, true))), opts, store, pages)
         == []
  {
    var never: Test := (r: CapturedRequest) => false;
    OwnReplay(s, ws, calls, source, env, store0, pages0, store, pages, i, opts, never);
    FilterNone(Filter(Matching(source, opts), Owned(i, s.count)), never);
  }

  lemma TwoOwners()
    ensures ShardOf("a", 2) == 0 && ShardOf("", 2) == 1
  {
    Fnv1aVectors();
  }

  /** Two requests, two shards and a limit of 1: on the slices both are replayed, by the hash filter one. */
  lemma LimitPerSlice(a: CapturedRequest, b: CapturedRequest)
    requires a.id == "a" && b.id == ""
    ensures !LimitHarmless([a, b], Owned(1, 2), 1)
    ensures Limited(Slice([a, b], 1, 2), 1) == [b] && Slice(Limited([a, b], 1), 1, 2) == []
  {
    TwoOwners();
    OneOfTwo(a, b, Owned(1, 2));
  }

  lemma OneOfTwo(a: CapturedRequest, b: CapturedRequest, mine: Test)
    requires mine(b) && !mine(a)
    ensures !LimitHarmless([a, b], mine, 1)
    ensures Limited(Filter([a, b], mine), 1) == [b] && Filter(Limited([a, b], 1), mine) == []
  {
    assert [a, b][..1] == [a] && [a, b][1..] == [b] && [] + [a] == [a] && [a] + [b] == [a, b];
    FilterSnoc([], a, mine);
    FilterSnoc([a], b, mine);
    assert a in [a] && b in [b];
  }
}
