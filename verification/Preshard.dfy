/**
 Presharding: one pass over a capture that writes every request to the slice of the shard
 that owns it. A worker that reads its slice replays the same requests, in the same order,
 as a worker that reads the whole capture and filters by hash.
 */
module Preshard {
  import opened Text
  import opened Options
  import opened Calendar
  import opened Capture
  import opened ObjectWriter
  import opened CaptureReader
  import opened RoundTrip
  import opened Sharding

  function ShardSliceCaptureID(captureID: string, index: nat, count: nat): string {
    captureID + "/shards/" + Decimal(index) + "-of-" + Decimal(count)
  }

  /** The name as the workers and the documentation spell it: the index first, then the count. */
  lemma SliceNames()
    ensures ShardSliceCaptureID("checkout", 0, 4) == "checkout/shards/0-of-4"
    ensures ShardSliceCaptureID("checkout", 3, 4) == "checkout/shards/3-of-4"
  {
    assert Decimal(0) == "0" && Decimal(3) == "3" && Decimal(4) == "4";
  }

  /** How the run's writers are configured. */
  datatype Setup = Setup(prefix: string, captureID: string, agentPod: string, count: nat,
                         flushInterval: int, maxBufferBytes: int, codec: Codec, start: nat)

  function SliceLocation(s: Setup, i: nat): Location {
    Location(s.prefix, ShardSliceCaptureID(s.captureID, i, s.count), s.agentPod)
  }

  function SliceConfig(s: Setup, i: nat): Config {
    NewConfig(CloudObjectName(SliceLocation(s, i)), s.flushInterval, s.maxBufferBytes, s.codec)
  }

  function SliceConfigs(s: Setup): (cs: seq<Config>)
    ensures |cs| == s.count && forall i :: 0 <= i < s.count ==> cs[i] == SliceConfig(s, i)
  {
    seq(s.count, i requires 0 <= i < s.count => SliceConfig(s, i))
  }

  function SlicePrefix(s: Setup, i: nat): string {
    BuildObjectPrefix(s.prefix, ShardSliceCaptureID(s.captureID, i, s.count))
  }

  // ---------------------------------------------------------------------
  // One slice
  // ---------------------------------------------------------------------

  /** The k-th storage call of the run sees the k-th element; its dates never go back and can be printed. */
  ghost predicate ClockAdvances(env: nat -> Env) {
    && (forall i, j :: i <= j ==> env(i).name / DAY <= env(j).name / DAY)
    && (forall i :: Printable(DateOf(env(i).name)))
  }

  /** The calls used elements of the clock before the k-th, in order. */
  ghost predicate CallsBefore(calls: seq<Call>, env: nat -> Env, k: nat) {
    ClockAdvances(env) ==>
      && DatesAdvance(calls)
      && forall j :: 0 <= j < |calls| ==>
           calls[j].env.name / DAY <= env(k).name / DAY && Printable(DateOf(calls[j].env.name))
  }

  /** A slice's writer: a lifetime without a failed upload that has accepted exactly `slice`. */
  ghost predicate SliceIs(c: Config, start: nat, w: Writer, calls: seq<Call>, slice: seq<CapturedRequest>) {
    w == Lifetime(c, start, calls) && w.strays == [] && Accepted(c, start, calls) == slice
  }

  lemma CallsStep(calls: seq<Call>, call: Call, env: nat -> Env, k: nat)
    requires CallsBefore(calls, env, k) && call.env == env(k)
    ensures CallsBefore(calls + [call], env, k + 1)
  {
    if ClockAdvances(env) {
      assert env(k).name / DAY <= env(k + 1).name / DAY;
    }
  }

  // ---------------------------------------------------------------------
  // All slices
  // ---------------------------------------------------------------------

  /** Every slice's writer has accepted what `source` holds for it; `cs` are the writers' configurations. */
  ghost predicate SlicesAre(cs: seq<Config>, start: nat, ws: seq<Writer>, calls: seq<seq<Call>>,
                            source: seq<CapturedRequest>,
                            env: nat -> Env, k: nat)
  {
    && |ws| == |calls| == |cs|
    && forall i :: 0 <= i < |cs| ==>
         SliceIs(cs[i], start, ws[i], calls[i], Slice(source, i, |cs|)) && CallsBefore(calls[i], env, k)
  }

  /** The shares of all slices. */
  ghost function Shares(source: seq<CapturedRequest>, n: nat): (shares: seq<seq<CapturedRequest>>)
    ensures |shares| == n && forall i :: 0 <= i < n ==> shares[i] == Slice(source, i, n)
  {
    seq(n, i => Slice(source, i, n))
  }

  /** The same for any given shares. */
  ghost predicate SharesAre(cs: seq<Config>, start: nat, ws: seq<Writer>, calls: seq<seq<Call>>,
                            shares: seq<seq<CapturedRequest>>,
                            env: nat -> Env, k: nat)
  {
    && |ws| == |calls| == |cs| == |shares|
    && forall i :: 0 <= i < |cs| ==> SliceIs(cs[i], start, ws[i], calls[i], shares[i]) && CallsBefore(calls[i], env, k)
  }

  lemma SharesSnoc(source: seq<CapturedRequest>, r: CapturedRequest, n: nat, shard: nat)
    requires n >= 2 && shard == ShardIndexOf(r.id, n) < n
    ensures Shares(source + [r], n) == Shares(source, n)[shard := Shares(source, n)[shard] + [r]]
  {
    forall i | 0 <= i < n ensures Shares(source + [r], n)[i]
      == Shares(source, n)[shard := Shares(source, n)[shard] + [r]][i] {}
  }

  lemma RouteShare(cs: seq<Config>, start: nat, ws: seq<Writer>, calls: seq<seq<Call>>,
                   shares: seq<seq<CapturedRequest>>,
                   env: nat -> Env, k: nat, r: CapturedRequest, shard: nat)
    requires SharesAre(cs, start, ws, calls, shares, env, k) && shard < |cs| && !ws[shard].closed
    requires Perform(cs[shard], ws[shard], WriteCall(Some(r), env(k))).1 == Ok
    ensures var v := Perform(cs[shard], ws[shard], WriteCall(Some(r), env(k))).0;
            && SharesAre(cs, start, ws[shard := v], calls[shard := calls[shard] + [WriteCall(Some(r), env(k))]],
                         shares[shard := shares[shard] + [r]], env, k + 1)
            && !v.closed
  {
    CallsStep(calls[shard], WriteCall(Some(r), env(k)), env, k);
    SliceWritten(cs[shard], start, ws[shard], calls[shard], shares[shard], r, env(k));
    forall i | 0 <= i < |cs| ensures CallsBefore(calls[i], env, k + 1) {}
  }

  lemma SliceWritten(c: Config, start: nat, w: Writer, calls: seq<Call>, share: seq<CapturedRequest>,
                     r: CapturedRequest, env: Env)
    requires SliceIs(c, start, w, calls, share) && !w.closed && Perform(c, w, WriteCall(Some(r), env)).1 == Ok
    ensures var v := Perform(c, w, WriteCall(Some(r), env)).0;
            SliceIs(c, start, v, calls + [WriteCall(Some(r), env)], share + [r]) && !v.closed
  {
    assert (calls + [WriteCall(Some(r), env)])[..|calls|] == calls;
  }

  lemma RouteOne(cs: seq<Config>, start: nat, ws: seq<Writer>, calls: seq<seq<Call>>, source: seq<CapturedRequest>,
                 env: nat -> Env, k: nat, r: CapturedRequest, shard: nat)
    requires |cs| >= 2 && SlicesAre(cs, start, ws, calls, source, env, k)
    requires shard == ShardIndexOf(r.id, |cs|) < |cs| && !ws[shard].closed
    requires Perform(cs[shard], ws[shard], WriteCall(Some(r), env(k))).1 == Ok
    ensures var v := Perform(cs[shard], ws[shard], WriteCall(Some(r), env(k))).0;
            && SlicesAre(cs, start, ws[shard := v], calls[shard := calls[shard] + [WriteCall(Some(r), env(k))]],
                         source + [r], env, k + 1)
            && !v.closed
  {
    RouteShare(cs, start, ws, calls, Shares(source, |cs|), env, k, r, shard);
    SharesSnoc(source, r, |cs|, shard);
  }

  lemma FinishOne(cs: seq<Config>, start: nat, ws: seq<Writer>, calls: seq<seq<Call>>, source: seq<CapturedRequest>,
                  env: nat -> Env, k: nat, shard: nat, call: Call)
    requires SlicesAre(cs, start, ws, calls, source, env, k) && shard < |cs| && !ws[shard].closed
    requires call.env == env(k) && !call.WriteCall? && Perform(cs[shard], ws[shard], call).1 == Ok
    ensures SlicesAre(cs, start, ws[shard := Perform(cs[shard], ws[shard], call).0],
                      calls[shard := calls[shard] + [call]], source, env, k + 1)
    ensures Perform(cs[shard], ws[shard], call).0.closed == call.CloseCall?
  {
    CallsStep(calls[shard], call, env, k);
    forall i | 0 <= i < |cs| ensures CallsBefore(calls[i], env, k + 1) {}
  }

  ghost predicate CountsAre(counts: seq<nat>, source: seq<CapturedRequest>) {
    forall i :: 0 <= i < |counts| ==> counts[i] == |Slice(source, i, |counts|)|
  }

  /** Where the run stands after routing `source`: all slices open, one count each. */
  ghost predicate Routed(cs: seq<Config>, start: nat, ws: seq<Writer>, counts: seq<nat>, calls: seq<seq<Call>>,
                         source: seq<CapturedRequest>, env: nat -> Env, k: nat)
  {
    && SlicesAre(cs, start, ws, calls, source, env, k)
    && (forall i :: 0 <= i < |cs| ==> !ws[i].closed)
    && |counts| == |cs| && CountsAre(counts, source)
  }

  /** Every slice is closed over exactly its share of `source`. */
  ghost predicate SlicesComplete(cs: seq<Config>, start: nat, ws: seq<Writer>, calls: seq<seq<Call>>,
                                 source: seq<CapturedRequest>,
                                 env: nat -> Env)
  {
    && (exists k: nat :: SlicesAre(cs, start, ws, calls, source, env, k))
    && (forall i :: 0 <= i < |cs| ==> ws[i].closed)
  }

  function FreshWriters(n: nat, start: nat): seq<Writer> { seq(n, i => Fresh(start)) }

  function Zeros(n: nat): seq<nat> { seq(n, i => 0) }

  function NoCalls(n: nat): seq<seq<Call>> { seq(n, i => []) }

  method RouteRequest(cs: seq<Config>, start: nat, writers: seq<Writer>, counts: seq<nat>, r: CapturedRequest,
                      env: nat -> Env,
                      k: nat, ghost source: seq<CapturedRequest>, ghost calls: seq<seq<Call>>)
    returns (ok: bool, writers': seq<Writer>, counts': seq<nat>, ghost calls': seq<seq<Call>>)
    requires |cs| >= 2 && Routed(cs, start, writers, counts, calls, source, env, k)
    ensures ok ==> Routed(cs, start, writers', counts', calls', source + [r], env, k + 1)
  {
    writers', counts', calls' := writers, counts, calls;
    var shard := ShardIndexOf(r.id, |cs|);
    ExactlyOneOwner(r.id, |cs|);
    var (w, outcome) := AfterWrite(cs[shard], writers[shard], Some(r), env(k));
    if outcome != Ok { return false, writers', counts', calls'; }
    RouteOne(cs, start, writers, calls, source, env, k, r, shard);
    writers' := writers[shard := w];
    calls' := calls[shard := calls[shard] + [WriteCall(Some(r), env(k))]];
    counts' := counts[shard := counts[shard] + 1];
    ok := true;
  }

  /** Everything up to the limit was read, and no error came first. */
  ghost predicate IsRead(all: Yield, limit: int, source: seq<CapturedRequest>) {
    source == Limited(all.items, limit) && (all.failed ==> |source| < |all.items|)
  }

  /** In the middle of a read: what has been read and what is left are all there is, and the limit is kept. */
  ghost predicate Underway(all: Yield, limit: int, source: seq<CapturedRequest>, left: Yield) {
    && source + left.items == all.items && left.failed == all.failed
    && (limit > 0 ==> |source| <= limit)
  }

  lemma ReadOn(all: Yield, limit: int, source: seq<CapturedRequest>, left: Yield, item: Item, after: Yield,
               total: nat)
    requires Underway(all, limit, source, left) && Delivers(limit, left, |source|, item, after, total)
    ensures item.Done? ==> IsRead(all, limit, source)
    ensures item.Got? ==> total == |source| + 1 && Underway(all, limit, source + [item.request], after)
    ensures item.Got? ==> |after.items| < |left.items|
  {
    if left.items == [] {
      assert source + left.items == source;
    } else if item.Got? {
      assert source + left.items == source + [left.items[0]] + left.items[1..];
    } else {
      assert all.items[..|source|] == source;
    }
  }

  /** The read loop: route every request until the reader is done; any error fails the run. */
  method RouteAll(reader: Reader, cs: seq<Config>, start: nat, env: nat -> Env)
    returns (ok: bool, writers: seq<Writer>, counts: seq<nat>, total: nat,
             ghost source: seq<CapturedRequest>, ghost calls: seq<seq<Call>>)
    requires |cs| >= 2
    requires reader.Valid() && reader.started && !reader.closed && reader.totalRead == 0
    modifies reader
    ensures ok ==>
      && IsRead(old(reader.pending), reader.opts.limit, source) && total == |source|
      && Routed(cs, start, writers, counts, calls, source, env, total)
    ensures reader.opts == old(reader.opts)
  {
    ghost var all, limit := reader.pending, reader.opts.limit;
    writers, counts := FreshWriters(|cs|, start), Zeros(|cs|);
    source, calls := [], NoCalls(|cs|);
    total := 0;
    while true
      invariant reader.Valid() && reader.started && !reader.closed && reader.opts == old(reader.opts)
      invariant reader.totalRead == |source| == total && Underway(all, limit, source, reader.pending)
      invariant Routed(cs, start, writers, counts, calls, source, env, total)
      decreases |reader.pending.items|
    {
      ghost var left := reader.pending;
      var item := reader.Next();
      ReadOn(all, limit, source, left, item, reader.pending, reader.totalRead);
      match item
      case Done =>
        return true, writers, counts, total, source, calls;
      case Error =>
        return false, writers, counts, total, source, calls;
      case Got(r) =>
        ok, writers, counts, calls := RouteRequest(cs, start, writers, counts, r, env, total, source, calls);
        if !ok { return false, writers, counts, total, source, calls; }
        source, total := source + [r], total + 1;
    }
  }

  /** Flush and close every slice; one failure fails the run. */
  method CloseSlices(cs: seq<Config>, start: nat, writers: seq<Writer>, env: nat -> Env, first: nat,
                     ghost source: seq<CapturedRequest>, ghost calls: seq<seq<Call>>)
    returns (ok: bool, writers': seq<Writer>, ghost calls': seq<seq<Call>>)
    requires SlicesAre(cs, start, writers, calls, source, env, first)
    requires forall i :: 0 <= i < |cs| ==> !writers[i].closed
    ensures ok ==> SlicesComplete(cs, start, writers', calls', source, env)
  {
    var k := first;
    writers', calls' := writers, calls;
    for i := 0 to |cs|
      invariant SlicesAre(cs, start, writers', calls', source, env, k)
      invariant forall j :: 0 <= j < |cs| ==> writers'[j].closed == (j < i)
    {
      var (w, flushed) := AfterFlush(cs[i], writers'[i], env(k));
      if flushed != Ok { return false, writers', calls'; }
      FinishOne(cs, start, writers', calls', source, env, k, i, FlushCall(env(k)));
      writers', calls', k := writers'[i := w], calls'[i := calls'[i] + [FlushCall(env(k))]], k + 1;
      var (v, closed) := AfterClose(cs[i], writers'[i], env(k));
      if closed != Ok { return false, writers', calls'; }
      FinishOne(cs, start, writers', calls', source, env, k, i, CloseCall(env(k)));
      writers', calls', k := writers'[i := v], calls'[i := calls'[i] + [CloseCall(env(k))]], k + 1;
    }
    assert SlicesAre(cs, start, writers', calls', source, env, k);
    ok := true;
  }

  datatype PreshardResult =
    | Failed
    | Written(total: nat, counts: seq<nat>, writers: seq<Writer>)

  /** Everything the run reads. */
  ghost function Selected(codec: Codec, fetch: Fetcher, prefix: string, pages: seq<seq<string>>,
                          opts: ReadOptions): Yield
  {
    FromObjects(Accept(codec, opts), fetch, Sort(Keep(Flatten(pages), BuildObjectPrefix(prefix, opts.captureID), opts)))
  }

  /** `source` and `calls` expose what was read and which calls each slice's writer saw. */
  method Preshard(reader: Reader, pages: seq<seq<string>>, opts: ReadOptions, s: Setup, env: nat -> Env)
    returns (result: PreshardResult, ghost source: seq<CapturedRequest>, ghost calls: seq<seq<Call>>)
    requires reader.Valid() && !reader.closed && reader.totalRead == 0
    modifies reader
    ensures s.count < 2 || s.captureID == "" || old(reader.started) ==> result == Failed
    ensures result.Written? ==>
      && IsRead(Selected(reader.codec, reader.fetch, s.prefix, pages, opts), opts.limit, source)
      && result.total == |source| && |result.counts| == s.count && CountsAre(result.counts, source)
      && SlicesComplete(SliceConfigs(s), s.start, result.writers, calls, source, env)
  {
    source, calls := [], [];
    if s.count < 2 || s.captureID == "" { return Failed, source, calls; }
    var ok := reader.Open(s.prefix, pages, opts);
    if !ok { return Failed, source, calls; }
    result, source, calls := WriteSlices(reader, SliceConfigs(s), s.start, env);
  }

  method WriteSlices(reader: Reader, cs: seq<Config>, start: nat, env: nat -> Env)
    returns (result: PreshardResult, ghost source: seq<CapturedRequest>, ghost calls: seq<seq<Call>>)
    requires |cs| >= 2
    requires reader.Valid() && reader.started && !reader.closed && reader.totalRead == 0
    modifies reader
    ensures reader.opts == old(reader.opts)
    ensures result.Written? ==>
      && IsRead(old(reader.pending), reader.opts.limit, source)
      && result.total == |source| && |result.counts| == |cs| && CountsAre(result.counts, source)
      && SlicesComplete(cs, start, result.writers, calls, source, env)
  {
    var ok, writers, counts, total;
    ok, writers, counts, total, source, calls := RouteAll(reader, cs, start, env);
    if !ok { return Failed, source, calls; }
    ok, writers, calls := CloseSlices(cs, start, writers, env, total, source, calls);
    if !ok { return Failed, source, calls; }
    result := Written(total, counts, writers);
  }

  // ---------------------------------------------------------------------
  // Slices in the store
  // ---------------------------------------------------------------------

  /** The directory `shards/` of a capture. */
  function ShardsDirectory(prefix: string, captureID: string): string {
    var trimmed := Trim(prefix, {'/'});
    (if trimmed != "" then trimmed + "/" + captureID else captureID) + "/shards/"
  }

  lemma PrefixShape(prefix: string, id: string)
    requires id != ""
    ensures var trimmed := Trim(prefix, {'/'});
            BuildObjectPrefix(prefix, id) == (if trimmed != "" then trimmed + "/" + id else id) + "/"
  {
    var trimmed := Trim(prefix, {'/'});
    if trimmed != "" {
      assert [trimmed] + [id] == [trimmed, id] && [trimmed, id][1..] == [id];
      assert Join([trimmed, id]) == trimmed + "/" + id;
    } else {
      assert [] + [id] == [id];
    }
  }

  lemma SlicePrefixShape(prefix: string, captureID: string, i: nat, n: nat)
    ensures BuildObjectPrefix(prefix, ShardSliceCaptureID(captureID, i, n))
         == ShardsDirectory(prefix, captureID) + (Decimal(i) + "-of-" + Decimal(n) + "/")
  {
    PrefixShape(prefix, ShardSliceCaptureID(captureID, i, n));
  }

  /** A key under two slice directories of a capture is under one and the same. */
  lemma SlicePrefixesDisjoint(prefix: string, captureID: string, i: nat, m: nat, j: nat, n: nat, key: string)
    requires captureID != ""
    requires HasPrefix(key, BuildObjectPrefix(prefix, ShardSliceCaptureID(captureID, i, m)))
    requires HasPrefix(key, BuildObjectPrefix(prefix, ShardSliceCaptureID(captureID, j, n)))
    ensures i == j && m == n
  {
    SlicePrefixShape(prefix, captureID, i, m);
    SlicePrefixShape(prefix, captureID, j, n);
    SameSlice(key, ShardsDirectory(prefix, captureID), Decimal(i), Decimal(m), Decimal(j), Decimal(n));
    DecimalInjective(i, j);
    DecimalInjective(m, n);
  }

  lemma SplitName(tail: string, i: string, m: string) returns (x: string)
    requires i + "-of-" + m + "/" <= tail
    ensures tail == i + ['-'] + ("of-" + (m + ['/'] + x))
  {
    x := tail[|i + "-of-" + m + "/"|..];
    assert tail == i + "-of-" + m + "/" + x;
  }

  lemma SameName(tail: string, i: string, m: string, j: string, n: string)
    requires AllDigits(i) && AllDigits(m) && AllDigits(j) && AllDigits(n)
    requires i + "-of-" + m + "/" <= tail && j + "-of-" + n + "/" <= tail
    ensures i == j && m == n
  {
    var x := SplitName(tail, i, m);
    var y := SplitName(tail, j, n);
    var u, v := "of-" + (m + ['/'] + x), "of-" + (n + ['/'] + y);
    SplitAtSeparator(i, u, j, v, '-');
    assert u[3..] == m + ['/'] + x && v[3..] == n + ['/'] + y;
    SplitAtSeparator(m, x, n, y, '/');
  }

  lemma SameSlice(key: string, base: string, i: string, m: string, j: string, n: string)
    requires AllDigits(i) && AllDigits(m) && AllDigits(j) && AllDigits(n)
    requires base + (i + "-of-" + m + "/") <= key && base + (j + "-of-" + n + "/") <= key
    ensures i == j && m == n
  {
    SameName(key[|base|..], i, m, j, n);
  }

  /** The store holds all slices of the run, and no other capture data lies in a slice directory of this split. */
  ghost predicate HoldsSlices(s: Setup, ws: seq<Writer>, store: map<string, string>) {
    && |ws| == s.count
    && (forall i, k :: 0 <= i < s.count && k in ws[i].objects ==> k in store && store[k] == ws[i].objects[k])
    && (forall i, k :: 0 <= i < s.count && k in store && DataKey(k, SlicePrefix(s, i)) ==>
          exists j :: 0 <= j < s.count && k in ws[j].objects)
  }

  lemma SliceKeysUnderPrefix(s: Setup, i: nat, w: Writer, k: string)
    requires s.captureID != "" && k in w.objects && BackendHolds(SliceConfig(s, i), w.objects, w.commits, w.strays)
    ensures HasPrefix(k, SlicePrefix(s, i))
  {
    var c := SliceConfig(s, i);
    assert exists o: Object :: k == Key(c, o);
    var o: Object :| k == Key(c, o);
    KeyShape(SliceLocation(s, i), o.t, o.sequence);
  }

  /** Every slice's objects lie in its own directory. */
  ghost predicate InPlace(s: Setup, ws: seq<Writer>) {
    |ws| == s.count && forall i, k :: 0 <= i < s.count && k in ws[i].objects ==> HasPrefix(k, SlicePrefix(s, i))
  }

  lemma SlicesInPlace(s: Setup, ws: seq<Writer>, calls: seq<seq<Call>>, source: seq<CapturedRequest>, env: nat -> Env)
    requires s.captureID != "" && SlicesComplete(SliceConfigs(s), s.start, ws, calls, source, env)
    ensures InPlace(s, ws)
  {
    forall i, k | 0 <= i < s.count && k in ws[i].objects ensures HasPrefix(k, SlicePrefix(s, i)) {
      CloudNamesSeparate(SliceConfig(s, i), SliceLocation(s, i));
      LifetimeValid(SliceConfig(s, i), s.start, calls[i]);
      SliceKeysUnderPrefix(s, i, ws[i], k);
    }
  }

  lemma SliceShown(s: Setup, ws: seq<Writer>, store: map<string, string>, i: nat)
    requires s.captureID != "" && i < s.count && HoldsSlices(s, ws, store) && InPlace(s, ws)
    ensures Shows(store, ws[i].objects, SlicePrefix(s, i))
  {
    forall k | k in store && DataKey(k, SlicePrefix(s, i)) ensures k in ws[i].objects {
      var j :| 0 <= j < s.count && k in ws[j].objects;
      SlicePrefixesDisjoint(s.prefix, s.captureID, i, s.count, j, s.count, k);
    }
  }

  /**
   Presharding refines the hash filter: after a successful run, reading slice i of n hands out
   exactly the requests of the source that shard i owns, in source order.
   */
  lemma SliceReadsFiltered(s: Setup, ws: seq<Writer>, calls: seq<seq<Call>>, source: seq<CapturedRequest>,
                           env: nat -> Env,
                           store: map<string, string>, pages: seq<seq<string>>, i: nat)
    requires s.captureID != "" && SlicesComplete(SliceConfigs(s), s.start, ws, calls, source, env) && i < s.count
    requires ClockAdvances(env) && Lawful(s.codec) && Scannable(s.codec, source)
    requires ws[i].sequence < 1_000_000
    requires HoldsSlices(s, ws, store) && IsListing(pages, store)
    ensures ReadBack(s.codec, SlicePrefix(s, i), store, pages, NoFilter(ShardSliceCaptureID(s.captureID, i, s.count)))
         == Yield(Slice(source, i, s.count), false)
  {
    var at, c := SliceLocation(s, i), SliceConfig(s, i);
    SlicesInPlace(s, ws, calls, source, env);
    SliceShown(s, ws, store, i);
    forall j | 0 <= j < |Slice(source, i, s.count)| ensures !TooLong(s.codec.encode(Slice(source, i, s.count)[j])) {
      FilterMembers(source, Owned(i, s.count), Slice(source, i, s.count)[j]);
    }
    LifetimeRoundTrip(c, at, s.start, calls[i], store, pages);
  }

  lemma {:induction false} SumOfSlices(source: seq<CapturedRequest>, count: int, keeps: seq<CapturedRequest -> bool>,
                                       counts: seq<nat>)
    requires |counts| == |keeps| && forall i :: 0 <= i < |keeps| ==> counts[i] == |Filter(source, keeps[i])|
    ensures Sum(counts) == |Union(source, keeps)|
  {
    if keeps == [] {
    } else {
      SumOfSlices(source, count, keeps[..|keeps| - 1], counts[..|counts| - 1]);
    }
  }

  function Sum(counts: seq<nat>): nat {
    if counts == [] then 0 else Sum(counts[..|counts| - 1]) + counts[|counts| - 1]
  }

  /** The reported counts add up to the total, and the slices together are the source. */
  lemma CountsAddUp(s: Setup, counts: seq<nat>, source: seq<CapturedRequest>)
    requires s.count >= 2 && |counts| == s.count && CountsAre(counts, source)
    ensures Sum(counts) == |source|
    ensures Union(source, Owners(s.count)) == multiset(source)
  {
    SlicesPartition(source, s.count);
    SumOfSlices(source, s.count, Owners(s.count), counts);
    assert |multiset(source)| == |source|;
  }

  lemma SliceDirectoryNested(s: Setup, i: nat)
    requires s.captureID != ""
    ensures BuildObjectPrefix(s.prefix, s.captureID) <= SlicePrefix(s, i)
  {
    PrefixShape(s.prefix, s.captureID);
    SlicePrefixShape(s.prefix, s.captureID, i, s.count);
  }

  // ---------------------------------------------------------------------
  // The worker's choice
  // ---------------------------------------------------------------------

  datatype ShardSpec = ShardSpec(index: nat, count: nat, presharded: bool)

  /** Which capture a worker opens, and the shard filter it applies; a count of 1 is no filter. */
  datatype Input = Input(captureID: string, index: nat, count: nat)

  /** `buildReplayArgs`. */
  function ReplayInput(captureID: string, shard: Option<ShardSpec>): Input {
    match shard
    case None => Input(captureID, 0, 1)
    case Some(sh) =>
      if sh.presharded then Input(ShardSliceCaptureID(captureID, sh.index, sh.count), 0, 1)
      else Input(captureID, sh.index, sh.count)
  }

  lemma {:induction false} NoFilterKeepsAll(rs: seq<CapturedRequest>)
    ensures Slice(rs, 0, 1) == rs
  {
    if rs == [] {
    } else {
      NoFilterKeepsAll(rs[..|rs| - 1]);
    }
  }

  /** What a run that presharded everything routed is what a reader of the raw capture handed out. */
  lemma SourceIsRead(codec: Codec, prefix: string, captureID: string, store: map<string, string>,
                     pages: seq<seq<string>>)
    ensures Limited(Selected(codec, Fetch(store), prefix, pages, NoFilter(captureID)).items, NoFilter(captureID).limit)
         == ReadBack(codec, BuildObjectPrefix(prefix, captureID), store, pages, NoFilter(captureID)).items
  {
  }

  /** What a worker replays: it reads its capture with the options, up to their limit, and keeps its share. */
  ghost function Replayed(codec: Codec, prefix: string, input: Input, opts: ReadOptions, store: map<string, string>,
                          pages: seq<seq<string>>)
    : seq<CapturedRequest>
  {
    var id := input.captureID;
    var read := ReadBack(codec, BuildObjectPrefix(prefix, id), store, pages, opts.(captureID := id));
    Slice(Limited(read.items, opts.limit), input.index, input.count)
  }

  /** After a run over the capture in `store0`, a worker of a presharded load test that filters nothing replays
      from the slices what its hash-filtering twin replays from the raw capture of before the run. */
  lemma WorkersAgree(s: Setup, ws: seq<Writer>, calls: seq<seq<Call>>, source: seq<CapturedRequest>, env: nat -> Env,
                     store0: map<string, string>, pages0: seq<seq<string>>,
                     store: map<string, string>, pages: seq<seq<string>>, i: nat)
    requires var opts := NoFilter(s.captureID);
             source == Limited(Selected(s.codec, Fetch(store0), s.prefix, pages0, opts).items, opts.limit)
    requires s.captureID != "" && SlicesComplete(SliceConfigs(s), s.start, ws, calls, source, env) && i < s.count
    requires ClockAdvances(env) && Lawful(s.codec) && Scannable(s.codec, source)
    requires ws[i].sequence < 1_000_000
    requires HoldsSlices(s, ws, store) && IsListing(pages, store)
    ensures var own := ReplayInput(s.captureID, Some(ShardSpec(i, s.count, true)));
            var twin := ReplayInput(s.captureID, Some(ShardSpec(i, s.count, false)));
            var opts := NoFilter(s.captureID);
            Replayed(s.codec, s.prefix, own, opts, store, pages)
            == Replayed(s.codec, s.prefix, twin, opts, store0, pages0)
  {
    SliceReadsFiltered(s, ws, calls, source, env, store, pages, i);
    NoFilterKeepsAll(Slice(source, i, s.count));
    SourceIsRead(s.codec, s.prefix, s.captureID, store0, pages0);
  }
}
