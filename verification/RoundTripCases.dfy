/** Concrete lifetimes at which each condition of the round trip fails. */
module RoundTripCases {
  import opened Text
  import opened Options
  import opened Calendar
  import opened Capture
  import opened ObjectWriter
  import opened CaptureReader
  import opened RoundTrip

  function Here(): Location {
    Location("", "c", "a")
  }

  function Prefix(): string {
    BuildObjectPrefix("", "c")
  }

  /** A writer that uploads to the cloud, with any flush interval and buffer size. */
  ghost predicate Uploads(c: Config, r: CapturedRequest) {
    c.objectName == CloudObjectName(Here()) && Lawful(c.codec) && Scannable(c.codec, [r])
  }

  lemma Undated()
    ensures FirstDate(Split(CaptureDirectory(Here()))).None?
  {
    assert CaptureDirectory(Here()) == "c";
    NoSlash("c");
    assert Parse("c").None?;
  }

  // ---------------------------------------------------------------------
  // Captured before midnight, uploaded after it
  // ---------------------------------------------------------------------

  function MidnightCalls(r: CapturedRequest): seq<Call> {
    var env := Env(DAY, DAY, DAY, Stored);
    [WriteCall(Some(r), env), CloseCall(env)]
  }

  /** The first write leaves the request in the buffer, or flushes at once. */
  lemma FirstWrite(c: Config, r: CapturedRequest, env: Env)
    ensures var v, line := AfterWrite(c, ObjectWriter.Fresh(0), Some(r), env).0, c.codec.encode(r) + "\n";
            var buffered := Writer(0, line, false, 0, map[], [r], [r], [], []);
            v == buffered || v == AfterFlushLocked(c, buffered, env).0
  {
    var line := c.codec.encode(r) + "\n";
    assert "" + line == line && [] + [r] == [r];
    assert Appended(c, ObjectWriter.Fresh(0), r) == Writer(0, line, false, 0, map[], [r], [r], [], []);
  }

  /** Flushing a buffered request commits it as the next object. */
  lemma FlushOne(c: Config, w: Writer, env: Env)
    requires w.buffer != "" && env.upload.Stored?
    ensures var v, o := AfterFlushLocked(c, w, env), Object(env.name, w.sequence + 1, w.pending);
            && v.1.Ok? && v.0.commits == w.commits + [o] && v.0.buffer == "" && v.0.sequence == w.sequence + 1
            && v.0.strays == w.strays && v.0.closed == w.closed
            && v.0.objects == w.objects[Key(c, o) := w.buffer] && v.0.accepted == w.accepted
  {
  }

  lemma MidnightWritten(c: Config, r: CapturedRequest, env: Env)
    requires env.upload.Stored? && env.name == DAY
    ensures var v := AfterWrite(c, ObjectWriter.Fresh(0), Some(r), env).0;
            var w := AfterClose(c, v, env).0;
            w.closed && w.sequence == 1 && w.strays == [] && w.commits == [Object(DAY, 1, [r])] && !v.closed
  {
    FirstWrite(c, r, env);
    var line := c.codec.encode(r) + "\n";
    var buffered := Writer(0, line, false, 0, map[], [r], [r], [], []);
    assert |line| > 0;
    FlushOne(c, buffered, env);
    assert [] + [Object(DAY, 1, [r])] == [Object(DAY, 1, [r])];
  }

  lemma MidnightLife(c: Config, r: CapturedRequest)
    ensures var w := Lifetime(c, 0, MidnightCalls(r));
            w.closed && w.sequence == 1 && w.strays == [] && w.commits == [Object(DAY, 1, [r])]
    ensures Accepted(c, 0, MidnightCalls(r)) == [r]
  {
    var calls := MidnightCalls(r);
    var one := calls[..1];
    assert one == [calls[0]] && one[..0] == [] && calls[..|calls| - 1] == one;
    MidnightWritten(c, r, calls[0].env);
    assert Lifetime(c, 0, one[..|one| - 1]) == ObjectWriter.Fresh(0);
    assert Lifetime(c, 0, one) == AfterWrite(c, ObjectWriter.Fresh(0), Some(r), calls[0].env).0;
    assert Accepted(c, 0, one) == [] + [r] == [r];
  }

  lemma MidnightWhole(c: Config, r: CapturedRequest, store: map<string, string>)
    requires Uploads(c, r) && Shows(store, Lifetime(c, 0, MidnightCalls(r)).objects, Prefix())
    ensures WholeLife(c, Here(), 0, MidnightCalls(r), store)
  {
    MidnightLife(c, r);
    EarlyDates();
  }

  lemma MidnightPruned(c: Config, r: CapturedRequest, opts: ReadOptions)
    requires c.objectName == CloudObjectName(Here()) && opts.end == DAY - 1
    ensures Kept(c, [Object(DAY, 1, [r])], InTime(opts)) == []
  {
    var os := [Object(DAY, 1, [r])];
    Undated();
    EarlyDates();
    PrunedByUpload(c, Here(), os[0], opts);
    assert os[1..] == [];
  }

  /** The request matches, and the reader does not hand it out. */
  lemma HiddenAtMidnight(c: Config, r: CapturedRequest, store: map<string, string>, pages: seq<seq<string>>)
    requires Uploads(c, r) && r.timestamp == DAY - 1 && IsListing(pages, store)
    requires Shows(store, Lifetime(c, 0, MidnightCalls(r)).objects, Prefix())
    ensures var opts := ReadOptions("c", 0, DAY - 1, "", [], 0);
            && Matching(Accepted(c, 0, MidnightCalls(r)), opts) == [r]
            && ReadBack(c.codec, Prefix(), store, pages, opts) == Yield([], false)
  {
    var opts, calls := ReadOptions("c", 0, DAY - 1, "", [], 0), MidnightCalls(r);
    MidnightLife(c, r);
    MidnightWhole(c, r, store);
    LifeIsOrdinary(c, Here(), 0, calls, store, pages);
    ReadsKept(c, Prefix(), Lifetime(c, 0, calls), store, pages, opts);
    MidnightPruned(c, r, opts);
    assert [r][1..] == [] && Matches(r, opts);
  }

  lemma EarlyDates()
    ensures Printable(DateOf(0)) && Printable(DateOf(DAY)) && Before(DateOf(DAY - 1), DateOf(DAY))
    ensures DateOf(0) == Date(1, 1, 1) && DateOf(DAY) == Date(1, 1, 2)
  {
    assert (DAY - 1) / DAY == 0 && DAY / DAY == 1 && 0 / DAY == 0;
    assert Civil(1) == Tomorrow(Civil(0));
  }

  // ---------------------------------------------------------------------
  // Stored with an error, retried on the next day
  // ---------------------------------------------------------------------

  function RetryCalls(r: CapturedRequest): seq<Call> {
    [WriteCall(Some(r), Env(0, 0, 0, Rejected)), FlushCall(Env(0, 0, 0, StoredThenFailed)),
     CloseCall(Env(DAY, DAY, DAY, Stored))]
  }

  lemma RetryWritten(c: Config, r: CapturedRequest)
    ensures var early, late := Object(0, 1, [r]), Object(DAY, 1, [r]);
            var line := c.codec.encode(r) + "\n";
            var v := AfterWrite(c, ObjectWriter.Fresh(0), Some(r), Env(0, 0, 0, Rejected)).0;
            var u := AfterFlush(c, v, Env(0, 0, 0, StoredThenFailed)).0;
            var w := AfterClose(c, u, Env(DAY, DAY, DAY, Stored)).0;
            && !v.closed && w.closed && w.accepted == [r] && w.commits == [late] && w.strays == [early]
            && w.objects == map[Key(c, early) := line][Key(c, late) := line]
  {
    FirstWrite(c, r, Env(0, 0, 0, Rejected));
    var line := c.codec.encode(r) + "\n";
    var buffered := Writer(0, line, false, 0, map[], [r], [r], [], []);
    var early, late := Object(0, 1, [r]), Object(DAY, 1, [r]);
    assert |line| > 0;
    var u := AfterFlushLocked(c, buffered, Env(0, 0, 0, StoredThenFailed)).0;
    assert [] + [early] == [early] && u == buffered.(objects := map[Key(c, early) := line], strays := [early]);
    FlushOne(c, u, Env(DAY, DAY, DAY, Stored));
    assert [] + [late] == [late];
  }

  lemma RetryLife(c: Config, r: CapturedRequest)
    ensures var w, early, late := Lifetime(c, 0, RetryCalls(r)), Object(0, 1, [r]), Object(DAY, 1, [r]);
            && w.closed && w.accepted == [r] && w.commits == [late] && w.strays == [early]
            && w.objects.Keys == {Key(c, early), Key(c, late)}
  {
    var calls := RetryCalls(r);
    var one, two := calls[..1], calls[..2];
    assert calls[..|calls| - 1] == two && two[..|two| - 1] == one && one[..|one| - 1] == [];
    RetryWritten(c, r);
    assert Lifetime(c, 0, one) == AfterWrite(c, ObjectWriter.Fresh(0), Some(r), Env(0, 0, 0, Rejected)).0;
    assert Lifetime(c, 0, two) == AfterFlush(c, Lifetime(c, 0, one), Env(0, 0, 0, StoredThenFailed)).0;
    assert Lifetime(c, 0, calls) == AfterClose(c, Lifetime(c, 0, two), Env(DAY, DAY, DAY, Stored)).0;
  }

  lemma DaysApart(c: Config, at: Location, m: nat, n: nat)
    requires at.captureID != "" && c.objectName == CloudObjectName(at)
    ensures c.objectName(0, m) != c.objectName(DAY, n)
  {
    EarlyDates();
    KeyShape(at, 0, m);
    KeyShape(at, DAY, n);
    ParseFormat(DateOf(0));
    ParseFormat(DateOf(DAY));
    DatesDiffer(BuildObjectPrefix(at.prefix, at.captureID), Format(DateOf(0)), Format(DateOf(DAY)),
      "/" + PodName(at.agentPod) + "-", Padded(m) + ".jsonl.gz", Padded(n) + ".jsonl.gz");
  }

  lemma DatesDiffer(base: string, d: string, e: string, pod: string, f: string, g: string)
    requires |d| == |e| && d != e
    ensures base + (d + pod) + f != base + (e + pod) + g
  {
    var a, b := base + (d + pod) + f, base + (e + pod) + g;
    assert a[|base|..|base| + |d|] == d && b[|base|..|base| + |e|] == e;
  }

  lemma RetryStray(c: Config, r: CapturedRequest)
    requires c.objectName == CloudObjectName(Here())
    ensures !StraysOverwritten(c, Lifetime(c, 0, RetryCalls(r)))
    ensures Ascending(KeysOf(c, Lifetime(c, 0, RetryCalls(r)).commits))
  {
    RetryLife(c, r);
    DaysApart(c, Here(), 1, 1);
    assert Lifetime(c, 0, RetryCalls(r)).strays[0] == Object(0, 1, [r]);
  }

  /** One request was accepted, and the reader hands out more than one. */
  lemma ReadTwiceAfterRetry(c: Config, r: CapturedRequest, store: map<string, string>, pages: seq<seq<string>>)
    requires Uploads(c, r) && IsListing(pages, store)
    requires Shows(store, Lifetime(c, 0, RetryCalls(r)).objects, Prefix())
    ensures Accepted(c, 0, RetryCalls(r)) == [r]
    ensures |ReadBack(c.codec, Prefix(), store, pages, NoFilter("c")).items| > 1
  {
    var calls := RetryCalls(r);
    var w := Lifetime(c, 0, calls);
    RetryLife(c, r);
    RetryStray(c, r);
    LifetimeAccepts(c, 0, calls);
    CloudNamesSeparate(c, Here());
    LifetimeValid(c, 0, calls);
    CloudDataNames(c, Here());
    MoreIsRead(c, Prefix(), w, store, pages, "c");
  }

  // ---------------------------------------------------------------------
  // A million objects in a day
  // ---------------------------------------------------------------------

  function Million(): seq<Object> {
    seq(1_000_000, i requires 0 <= i < 1_000_000 => Object(0, i + 1, []))
  }

  /** The keys do not sort in write order. */
  lemma MillionKeysOutOfOrder(c: Config)
    requires c.objectName == CloudObjectName(Here())
    ensures !Ascending(KeysOf(c, Million()))
  {
    var os := Million();
    EarlyDates();
    MillionIsPow10();
    assert os[999_999].sequence == 1_000_000 && Overflows(os[999_999].sequence);
    assert OverflowsAt(os, 999_998);
    KeysAscendIff(c, Here(), os);
  }
}
