/**
 Writing a capture and reading it back: what one writer accepted is what a reader of its
 prefix hands out, in the same order. The two places where that can fail, numbers that
 outgrow their padding and uploads that stored an object but reported an error, are
 pinned down exactly.
 */
module RoundTrip {
  import opened Text
  import opened Options
  import opened Collections
  import opened Calendar
  import opened Capture
  import opened ObjectWriter
  import opened CaptureReader

  // ---------------------------------------------------------------------
  // One object
  // ---------------------------------------------------------------------

  function Matching(rs: seq<CapturedRequest>, opts: ReadOptions): seq<CapturedRequest> {
    if rs == [] then [] else (if Matches(rs[0], opts) then [rs[0]] else []) + Matching(rs[1..], opts)
  }

  lemma {:induction false} MatchingAppend(a: seq<CapturedRequest>, b: seq<CapturedRequest>, opts: ReadOptions)
    ensures Matching(a + b, opts) == Matching(a, opts) + Matching(b, opts)
  {
    if a == [] {
      assert a + b == b;
    } else {
      assert (a + b)[0] == a[0] && (a + b)[1..] == a[1..] + b;
      MatchingAppend(a[1..], b, opts);
      Associate(if Matches(a[0], opts) then [a[0]] else [], Matching(a[1..], opts), Matching(b, opts));
    }
  }

  lemma {:induction false} MatchingEverything(rs: seq<CapturedRequest>, captureID: string)
    ensures Matching(rs, NoFilter(captureID)) == rs
  {
    if rs == [] {
    } else {
      MatchingEverything(rs[1..], captureID);
    }
  }

  /** No line is longer than the scanner can hold. */
  ghost predicate Scannable(codec: Codec, rs: seq<CapturedRequest>) {
    forall i :: 0 <= i < |rs| ==> !TooLong(codec.encode(rs[i]))
  }

  lemma {:induction false} ReadEncoded(codec: Codec, rs: seq<CapturedRequest>, opts: ReadOptions)
    requires Lawful(codec) && Scannable(codec, rs)
    ensures FromSegments(Accept(codec, opts), Segments(EncodeAll(codec, rs))) == Yield(Matching(rs, opts), false)
  {
    if rs == [] {
    } else {
      var line := codec.encode(rs[0]);
      assert rs[0] in rs && '\n' !in line && '\r' !in line;
      SegmentsCons(line, EncodeAll(codec, rs[1..]));
      ReadEncoded(codec, rs[1..], opts);
      var segments := Segments(EncodeAll(codec, rs));
      assert segments[0] == line && segments[1..] == Segments(EncodeAll(codec, rs[1..]));
      assert Token(line) == line;
    }
  }

  // ---------------------------------------------------------------------
  // Many objects
  // ---------------------------------------------------------------------

  /** `batches[i]` is what the object under `keys[i]` holds. */
  ghost predicate Holds(codec: Codec, store: map<string, string>, keys: seq<string>,
                        batches: seq<seq<CapturedRequest>>)
  {
    && |keys| == |batches|
    && forall i :: 0 <= i < |keys| ==>
         keys[i] in store && store[keys[i]] == EncodeAll(codec, batches[i]) && Scannable(codec, batches[i])
  }

  function Concat(batches: seq<seq<CapturedRequest>>): seq<CapturedRequest> {
    if batches == [] then [] else batches[0] + Concat(batches[1..])
  }

  lemma {:induction false} ConcatSnoc(batches: seq<seq<CapturedRequest>>, last: seq<CapturedRequest>)
    ensures Concat(batches + [last]) == Concat(batches) + last
  {
    if batches == [] {
      assert [last][1..] == [];
    } else {
      ConcatSnoc(batches[1..], last);
      assert (batches + [last])[1..] == batches[1..] + [last];
    }
  }

  lemma {:induction false} ReadObjects(codec: Codec, store: map<string, string>, keys: seq<string>,
                                       batches: seq<seq<CapturedRequest>>, opts: ReadOptions)
    requires Lawful(codec) && Holds(codec, store, keys, batches)
    ensures FromObjects(Accept(codec, opts), Fetch(store), keys) == Yield(Matching(Concat(batches), opts), false)
  {
    if keys == [] {
    } else {
      ReadObjects(codec, store, keys[1..], batches[1..], opts);
      ReadEncoded(codec, batches[0], opts);
      MatchingAppend(batches[0], Concat(batches[1..]), opts);
      assert keys[0] in store;
    }
  }

  function KeysOf(c: Config, os: seq<Object>): (keys: seq<string>)
    ensures |keys| == |os| && forall i :: 0 <= i < |os| ==> keys[i] == Key(c, os[i])
  {
    seq(|os|, i requires 0 <= i < |os| => Key(c, os[i]))
  }

  function BatchesOf(os: seq<Object>): (bs: seq<seq<CapturedRequest>>)
    ensures |bs| == |os| && forall i :: 0 <= i < |os| ==> bs[i] == os[i].batch
  {
    seq(|os|, i requires 0 <= i < |os| => os[i].batch)
  }

  lemma {:induction false} ConcatBatches(os: seq<Object>)
    ensures Concat(BatchesOf(os)) == Batches(os)
  {
    if os == [] {
    } else {
      var front := os[..|os| - 1];
      ConcatBatches(front);
      ConcatSnoc(BatchesOf(front), os[|os| - 1].batch);
      assert BatchesOf(os) == BatchesOf(front) + [os[|os| - 1].batch];
    }
  }

  lemma {:induction false} BatchInBatches(os: seq<Object>, i: nat, r: CapturedRequest)
    requires i < |os| && r in os[i].batch
    ensures r in Batches(os)
  {
    if i < |os| - 1 { BatchInBatches(os[..|os| - 1], i, r); }
  }

  // ---------------------------------------------------------------------
  // The order of the keys
  // ---------------------------------------------------------------------

  ghost predicate PrintableDates(os: seq<Object>) {
    forall i :: 0 <= i < |os| ==> Printable(DateOf(os[i].t))
  }

  /** The object after `i` shares its date and is the first with a longer number. */
  ghost predicate OverflowsAt(os: seq<Object>, i: nat)
    requires i < |os| - 1
  {
    os[i].t / DAY == os[i + 1].t / DAY && Overflows(os[i + 1].sequence)
  }

  ghost predicate OverflowsWithinADay(os: seq<Object>) {
    exists i :: 0 <= i < |os| - 1 && OverflowsAt(os, i)
  }

  /** The keys of one writer sort in write order exactly if no number outgrows its padding within a day. */
  lemma KeysAscendIff(c: Config, at: Location, os: seq<Object>)
    requires at.captureID != "" && c.objectName == CloudObjectName(at)
    requires Chronological(os) && PrintableDates(os)
    requires forall i :: 0 <= i < |os| ==> os[i].sequence == i + 1
    ensures Ascending(KeysOf(c, os)) <==> !OverflowsWithinADay(os)
  {
    var keys := KeysOf(c, os);
    forall i | 0 <= i < |os| - 1
      ensures Less(keys[i], keys[i + 1]) <==> !OverflowsAt(os, i)
    {
      NeighbourOrder(c, at, os, i);
    }
    if !OverflowsWithinADay(os) { AscendingFromNeighbours(keys); }
  }

  lemma NeighbourOrder(c: Config, at: Location, os: seq<Object>, i: nat)
    requires at.captureID != "" && c.objectName == CloudObjectName(at)
    requires i < |os| - 1 && os[i + 1].sequence == os[i].sequence + 1
    requires Printable(DateOf(os[i].t)) && Printable(DateOf(os[i + 1].t)) && os[i].t / DAY <= os[i + 1].t / DAY
    ensures Less(Key(c, os[i]), Key(c, os[i + 1])) <==> !OverflowsAt(os, i)
  {
    NextKeyOrder(at, os[i].t, os[i].sequence, os[i + 1].t);
  }

  /** Below a million objects no number outgrows its padding. */
  lemma BelowAMillion(os: seq<Object>)
    requires |os| < 1_000_000
    requires forall i :: 0 <= i < |os| ==> os[i].sequence == i + 1
    ensures !OverflowsWithinADay(os)
  {
    forall i | 0 <= i < |os| ensures !Overflows(os[i].sequence) {
      if Overflows(os[i].sequence) {
        var k: nat :| k >= 6 && os[i].sequence == Pow10(k);
        Pow10Grows(6, k);
      }
    }
  }

  // ---------------------------------------------------------------------
  // The round trip
  // ---------------------------------------------------------------------

  /** A listing names every stored object once, in whatever order and pages. */
  ghost predicate IsListing(pages: seq<seq<string>>, store: map<string, string>) {
    Distinct(Flatten(pages)) && forall k :: k in Flatten(pages) <==> k in store
  }

  /** Everything a reader of the prefix hands out. */
  ghost function ReadBack(codec: Codec, prefix: string, store: map<string, string>, pages: seq<seq<string>>,
                          opts: ReadOptions): Yield
  {
    FromObjects(Accept(codec, opts), Fetch(store), Sort(Keep(Flatten(pages), prefix, opts)))
  }

  /** Every stray object was overwritten by a retry on the same date. */
  ghost predicate StraysOverwritten(c: Config, w: Writer) {
    forall i :: 0 <= i < |w.strays| ==> exists j :: 0 <= j < |w.commits| && Key(c, w.strays[i]) == Key(c, w.commits[j])
  }

  /** Whatever the writer names an object, it is capture data under the prefix. */
  ghost predicate DataNames(c: Config, prefix: string) {
    forall t, n :: DataKey(c.objectName(t, n), prefix)
  }

  /** The store holds this writer's objects, and no other capture data under the prefix. */
  ghost predicate Shows(store: map<string, string>, objects: map<string, string>, prefix: string) {
    && (forall k :: k in objects ==> k in store && store[k] == objects[k])
    && (forall k :: k in store && DataKey(k, prefix) ==> k in objects)
  }

  /** The listing keeps exactly the writer's keys that are not pruned, each once, in key order. */
  lemma ListingKeeps(c: Config, prefix: string, w: Writer, store: map<string, string>, pages: seq<seq<string>>,
                     opts: ReadOptions)
    requires BackendHolds(c, w.objects, w.commits, w.strays) && DataNames(c, prefix)
    requires IsListing(pages, store) && Shows(store, w.objects, prefix)
    ensures var keys := Sort(Keep(Flatten(pages), prefix, opts));
            Ascending(keys) && forall k :: k in keys <==> k in w.objects && InTime(opts)(k)
  {
    KeepMembers(Flatten(pages), prefix, opts);
    SortSpec(Keep(Flatten(pages), prefix, opts));
  }

  lemma CommitsHold(c: Config, w: Writer)
    requires Valid(c, w) && Scannable(c.codec, w.accepted)
    ensures Holds(c.codec, w.objects, KeysOf(c, w.commits), BatchesOf(w.commits))
  {
    forall i | 0 <= i < |w.commits| ensures Scannable(c.codec, w.commits[i].batch) {
      forall j | 0 <= j < |w.commits[i].batch| ensures !TooLong(c.codec.encode(w.commits[i].batch[j])) {
        BatchInBatches(w.commits, i, w.commits[i].batch[j]);
        assert w.commits[i].batch[j] in w.accepted;
      }
    }
  }

  /** What the theorems below assume of the surroundings: a working codec, lines the scanner can
      hold, committed keys that sort in write order, and a listing that shows them all. */
  ghost predicate Ordinary(c: Config, prefix: string, w: Writer, store: map<string, string>, pages: seq<seq<string>>) {
    && Lawful(c.codec) && Scannable(c.codec, w.accepted)
    && Ascending(KeysOf(c, w.commits))
    && IsListing(pages, store) && Shows(store, w.objects, prefix) && DataNames(c, prefix)
  }

  // --- pruning by date --------------------------------------------------

  /** The listing does not prune a key with these bounds. */
  function InTime(opts: ReadOptions): string -> bool {
    (key: string) => KeepByDate(key, opts.start, opts.end)
  }

  /** The objects whose keys are kept. */
  function Kept(c: Config, os: seq<Object>, keep: string -> bool): seq<Object> {
    if os == [] then [] else (if keep(Key(c, os[0])) then [os[0]] else []) + Kept(c, os[1..], keep)
  }

  lemma KeysOfCons(c: Config, o: Object, rest: seq<Object>)
    ensures KeysOf(c, [o] + rest) == [Key(c, o)] + KeysOf(c, rest)
  {
  }

  lemma {:induction false} KeptKeys(c: Config, os: seq<Object>, keep: string -> bool)
    ensures KeysOf(c, Kept(c, os, keep)) == Select(KeysOf(c, os), keep)
  {
    if os == [] {
    } else {
      KeptKeys(c, os[1..], keep);
      assert os == [os[0]] + os[1..];
      KeysOfCons(c, os[0], os[1..]);
      if keep(Key(c, os[0])) {
        KeysOfCons(c, os[0], Kept(c, os[1..], keep));
      }
    }
  }

  lemma {:induction false} SelectAscending(keys: seq<string>, keep: string -> bool)
    requires Ascending(keys)
    ensures Ascending(Select(keys, keep))
  {
    if keys == [] {
    } else {
      SelectAscending(keys[1..], keep);
      SelectMembers(keys[1..], keep);
      var rest := Select(keys[1..], keep);
      forall i | 0 <= i < |rest| ensures Less(keys[0], rest[i]) {
        assert rest[i] in keys[1..];
      }
    }
  }

  lemma {:induction false} KeptHold(codec: Codec, store: map<string, string>, c: Config, os: seq<Object>,
                                    keep: string -> bool)
    requires Holds(codec, store, KeysOf(c, os), BatchesOf(os))
    ensures Holds(codec, store, KeysOf(c, Kept(c, os, keep)), BatchesOf(Kept(c, os, keep)))
  {
    if os == [] {
    } else {
      var ks, bs := KeysOf(c, os), BatchesOf(os);
      assert ks[1..] == KeysOf(c, os[1..]) && bs[1..] == BatchesOf(os[1..]);
      assert forall i :: 0 <= i < |os[1..]| ==>
        KeysOf(c, os[1..])[i] == ks[i + 1] && BatchesOf(os[1..])[i] == bs[i + 1];
      KeptHold(codec, store, c, os[1..], keep);
      assert ks[0] == Key(c, os[0]) && bs[0] == os[0].batch;
    }
  }

  /** The objects that are not kept hold a request that matches. */
  ghost predicate Hides(c: Config, os: seq<Object>, keep: string -> bool, opts: ReadOptions) {
    exists i, r :: 0 <= i < |os| && !keep(Key(c, os[i])) && r in os[i].batch && Matches(r, opts)
  }

  lemma {:induction false} MatchingNone(rs: seq<CapturedRequest>, opts: ReadOptions)
    ensures Matching(rs, opts) == [] <==> forall r :: r in rs ==> !Matches(r, opts)
  {
    if rs == [] {
    } else {
      MatchingNone(rs[1..], opts);
      assert rs == [rs[0]] + rs[1..];
    }
  }

  /** Hiding is a matter of the first object or of the rest. */
  lemma HidesFirst(c: Config, os: seq<Object>, keep: string -> bool, opts: ReadOptions)
    requires os != []
    ensures Hides(c, os, keep, opts)
       <==> (!keep(Key(c, os[0])) && Matching(os[0].batch, opts) != []) || Hides(c, os[1..], keep, opts)
  {
    MatchingNone(os[0].batch, opts);
    if Hides(c, os[1..], keep, opts) {
      var i, r :| 0 <= i < |os[1..]| && !keep(Key(c, os[1..][i])) && r in os[1..][i].batch && Matches(r, opts);
      assert os[i + 1] == os[1..][i];
    }
    if Hides(c, os, keep, opts) && (keep(Key(c, os[0])) || Matching(os[0].batch, opts) == []) {
      var i, r :| 0 <= i < |os| && !keep(Key(c, os[i])) && r in os[i].batch && Matches(r, opts);
      assert os[1..][i - 1] == os[i];
    }
  }

  /** The kept objects hold all the matching requests, or fewer, exactly as nothing is hidden. */
  lemma {:induction false} KeptMatching(c: Config, os: seq<Object>, keep: string -> bool, opts: ReadOptions)
    ensures var all, kept := Matching(Concat(BatchesOf(os)), opts),
          Matching(Concat(BatchesOf(Kept(c, os, keep))), opts);
            if Hides(c, os, keep, opts) then |kept| < |all| else kept == all
  {
    if os == [] {
    } else {
      var rest, kept := os[1..], Kept(c, os, keep);
      KeptMatching(c, rest, keep, opts);
      HidesFirst(c, os, keep, opts);
      ConcatFirst(os, opts);
      if keep(Key(c, os[0])) {
        assert kept[0] == os[0] && kept[1..] == Kept(c, rest, keep);
        ConcatFirst(kept, opts);
      } else {
        assert kept == Kept(c, rest, keep);
      }
    }
  }

  lemma ConcatFirst(os: seq<Object>, opts: ReadOptions)
    requires os != []
    ensures Matching(Concat(BatchesOf(os)), opts)
         == Matching(os[0].batch, opts) + Matching(Concat(BatchesOf(os[1..])), opts)
  {
    assert BatchesOf(os)[1..] == BatchesOf(os[1..]);
    MatchingAppend(os[0].batch, Concat(BatchesOf(os[1..])), opts);
  }

  /** A read with bounds gives back the objects that the listing does not prune. */
  lemma ReadsKept(c: Config, prefix: string, w: Writer, store: map<string, string>, pages: seq<seq<string>>,
                  opts: ReadOptions)
    requires Valid(c, w) && StraysOverwritten(c, w) && Ordinary(c, prefix, w, store, pages)
    ensures ReadBack(c.codec, prefix, store, pages, opts)
         == Yield(Matching(Concat(BatchesOf(Kept(c, w.commits, InTime(opts)))), opts), false)
  {
    var keep, kept := InTime(opts), Kept(c, w.commits, InTime(opts));
    ListingKeeps(c, prefix, w, store, pages, opts);
    OnlyCommittedKeys(c, w);
    KeptKeys(c, w.commits, keep);
    SelectAscending(KeysOf(c, w.commits), keep);
    SelectMembers(KeysOf(c, w.commits), keep);
    AscendingUnique(Sort(Keep(Flatten(pages), prefix, opts)), KeysOf(c, kept));
    CommitsHold(c, w);
    HoldsInStore(c.codec, w.objects, store, KeysOf(c, w.commits), BatchesOf(w.commits));
    KeptHold(c.codec, store, c, w.commits, keep);
    ReadObjects(c.codec, store, KeysOf(c, kept), BatchesOf(kept), opts);
  }

  /** A committed object that the bounds prune holds a request that the options match. */
  ghost predicate PrunesMatch(c: Config, w: Writer, opts: ReadOptions) {
    Hides(c, w.commits, InTime(opts), opts)
  }

  /** With nothing left in the buffer and no stray object, reading with any options gives back the accepted
      requests in the order they were accepted, filtered as the options say, if and only if no object that
      the bounds prune holds a request that the options match. */
  lemma ReadsWhatWasWritten(c: Config, prefix: string, w: Writer, store: map<string, string>, pages: seq<seq<string>>,
                            opts: ReadOptions)
    requires Valid(c, w) && w.pending == [] && StraysOverwritten(c, w) && Ordinary(c, prefix, w, store, pages)
    ensures ReadBack(c.codec, prefix, store, pages, opts) == Yield(Matching(w.accepted, opts), false)
       <==> !PrunesMatch(c, w, opts)
  {
    ReadsKept(c, prefix, w, store, pages, opts);
    KeptMatching(c, w.commits, InTime(opts), opts);
    AllCommitted(w);
  }

  /** The key carries no date, or the date on which the request was captured. */
  predicate DatedAlike(key: string, r: CapturedRequest) {
    FirstDate(Split(key)) in {None, Some(DateOf(r.timestamp))}
  }

  lemma DatedAlikeKept(key: string, r: CapturedRequest, opts: ReadOptions)
    requires DatedAlike(key, r) && Matches(r, opts)
    ensures InTime(opts)(key)
  {
    if opts.start != 0 { DatesFollowTime(opts.start, r.timestamp); }
    if opts.end != 0 { DatesFollowTime(r.timestamp, opts.end); }
  }

  /** So any read is complete when every request was uploaded on the date it was captured on. */
  lemma ReadsAllOfTheDay(c: Config, prefix: string, w: Writer, store: map<string, string>, pages: seq<seq<string>>,
                         opts: ReadOptions)
    requires Valid(c, w) && w.pending == [] && StraysOverwritten(c, w) && Ordinary(c, prefix, w, store, pages)
    requires forall i, r :: 0 <= i < |w.commits| && r in w.commits[i].batch ==> DatedAlike(Key(c, w.commits[i]), r)
    ensures ReadBack(c.codec, prefix, store, pages, opts) == Yield(Matching(w.accepted, opts), false)
  {
    forall i, r | 0 <= i < |w.commits| && r in w.commits[i].batch && Matches(r, opts)
      ensures InTime(opts)(Key(c, w.commits[i]))
    {
      DatedAlikeKept(Key(c, w.commits[i]), r, opts);
    }
    ReadsWhatWasWritten(c, prefix, w, store, pages, opts);
  }

  /** Without bounds nothing is pruned. */
  lemma ReadsEverything(c: Config, prefix: string, w: Writer, store: map<string, string>, pages: seq<seq<string>>,
                        captureID: string)
    requires Valid(c, w) && w.pending == [] && StraysOverwritten(c, w) && Ordinary(c, prefix, w, store, pages)
    ensures ReadBack(c.codec, prefix, store, pages, NoFilter(captureID)) == Yield(w.accepted, false)
  {
    ReadsWhatWasWritten(c, prefix, w, store, pages, NoFilter(captureID));
    MatchingEverything(w.accepted, captureID);
  }

  lemma HoldsInStore(codec: Codec, objects: map<string, string>, store: map<string, string>, keys: seq<string>,
                     batches: seq<seq<CapturedRequest>>)
    requires Holds(codec, objects, keys, batches)
    requires forall k :: k in objects ==> k in store && store[k] == objects[k]
    ensures Holds(codec, store, keys, batches)
  {
  }

  lemma OnlyCommittedKeys(c: Config, w: Writer)
    requires BackendHolds(c, w.objects, w.commits, w.strays) && StraysOverwritten(c, w)
    ensures forall k :: k in w.objects <==> k in KeysOf(c, w.commits)
  {
    var keys := KeysOf(c, w.commits);
    forall k | k in w.objects ensures k in keys {
      var j :| 0 <= j < |w.commits| && k == Key(c, w.commits[j]);
      assert keys[j] == k;
    }
    forall k | k in keys ensures k in w.objects {
      var i :| 0 <= i < |keys| && keys[i] == k;
    }
  }

  lemma CloudDataNames(c: Config, at: Location)
    requires at.captureID != "" && c.objectName == CloudObjectName(at)
    ensures DataNames(c, BuildObjectPrefix(at.prefix, at.captureID))
  {
    forall t, n ensures DataKey(c.objectName(t, n), BuildObjectPrefix(at.prefix, at.captureID)) {
      KeyShape(at, t, n);
    }
  }

  /** A closed writer with a cloud name: any calls, any flush points, uploads that fail without storing
      anything, dates that never go back, fewer than a million objects, a store with other captures in it. */
  ghost predicate WholeLife(c: Config, at: Location, start: nat, calls: seq<Call>, store: map<string, string>) {
    && at.captureID != "" && c.objectName == CloudObjectName(at) && Lawful(c.codec)
    && DatesAdvance(calls) && (forall i :: 0 <= i < |calls| ==> Printable(DateOf(calls[i].env.name)))
    && Scannable(c.codec, Accepted(c, start, calls))
    && var w := Lifetime(c, start, calls);
       && w.closed && w.sequence < 1_000_000 && w.strays == []
       && Shows(store, w.objects, BuildObjectPrefix(at.prefix, at.captureID))
  }

  lemma LifeIsOrdinary(c: Config, at: Location, start: nat, calls: seq<Call>, store: map<string, string>,
                       pages: seq<seq<string>>)
    requires WholeLife(c, at, start, calls, store) && IsListing(pages, store)
    ensures var w := Lifetime(c, start, calls);
            && Valid(c, w) && w.pending == [] && w.accepted == Accepted(c, start, calls)
            && Ordinary(c, BuildObjectPrefix(at.prefix, at.captureID), w, store, pages)
  {
    CloudNamesSeparate(c, at);
    LifetimeValid(c, start, calls);
    LifetimeAccepts(c, start, calls);
    LifetimeKeysAscend(c, at, start, calls);
    CloudDataNames(c, at);
  }

  /** The round trip over a whole lifetime: after a successful Close the reader hands out exactly the requests
      of the accepted writes. */
  lemma LifetimeRoundTrip(c: Config, at: Location, start: nat, calls: seq<Call>, store: map<string, string>,
                          pages: seq<seq<string>>)
    requires WholeLife(c, at, start, calls, store) && IsListing(pages, store)
    ensures ReadBack(c.codec, BuildObjectPrefix(at.prefix, at.captureID), store, pages, NoFilter(at.captureID))
         == Yield(Accepted(c, start, calls), false)
  {
    LifeIsOrdinary(c, at, start, calls, store, pages);
    ReadsEverything(c, BuildObjectPrefix(at.prefix, at.captureID), Lifetime(c, start, calls), store, pages,
      at.captureID);
  }

  /** The date of the object's upload lies outside the bounds. */
  predicate UploadedOutside(o: Object, opts: ReadOptions) {
    || (opts.start != 0 && Before(DateOf(o.t), DateOf(opts.start)))
    || (opts.end != 0 && Before(DateOf(opts.end), DateOf(o.t)))
  }

  /** The same for any options: the matching requests come back, unless one of them was uploaded on a date
      outside the bounds. (For a storage prefix and a capture ID that do not contain a date of their own.) */
  lemma LifetimeReadIff(c: Config, at: Location, start: nat, calls: seq<Call>, store: map<string, string>,
                        pages: seq<seq<string>>, opts: ReadOptions)
    requires WholeLife(c, at, start, calls, store) && IsListing(pages, store)
    requires FirstDate(Split(CaptureDirectory(at))).None?
    ensures ReadBack(c.codec, BuildObjectPrefix(at.prefix, at.captureID), store, pages, opts)
         == Yield(Matching(Accepted(c, start, calls), opts), false)
       <==> !LateUpload(Lifetime(c, start, calls).commits, opts)
  {
    var w := Lifetime(c, start, calls);
    LifeIsOrdinary(c, at, start, calls, store, pages);
    ReadsWhatWasWritten(c, BuildObjectPrefix(at.prefix, at.captureID), w, store, pages, opts);
    CommitDates(c, start, calls);
    forall i | 0 <= i < |w.commits| ensures InTime(opts)(Key(c, w.commits[i]))
      <==> !UploadedOutside(w.commits[i], opts) {
      PrunedByUpload(c, at, w.commits[i], opts);
    }
    SameHiding(c, w.commits, opts);
  }

  lemma PrunedByUpload(c: Config, at: Location, o: Object, opts: ReadOptions)
    requires at.captureID != "" && c.objectName == CloudObjectName(at) && Printable(DateOf(o.t))
    requires FirstDate(Split(CaptureDirectory(at))).None?
    ensures InTime(opts)(Key(c, o)) <==> !UploadedOutside(o, opts)
  {
    WrittenKeyDate(at, o.t, o.sequence);
  }

  /** A request that the options match was uploaded on a date outside their bounds. */
  ghost predicate LateUpload(os: seq<Object>, opts: ReadOptions) {
    exists i, r :: 0 <= i < |os| && UploadedOutside(os[i], opts) && r in os[i].batch && Matches(r, opts)
  }

  lemma SameHiding(c: Config, os: seq<Object>, opts: ReadOptions)
    requires forall i :: 0 <= i < |os| ==> (InTime(opts)(Key(c, os[i])) <==> !UploadedOutside(os[i], opts))
    ensures Hides(c, os, InTime(opts), opts) <==> LateUpload(os, opts)
  {
  }

  lemma LifetimeKeysAscend(c: Config, at: Location, start: nat, calls: seq<Call>)
    requires at.captureID != "" && c.objectName == CloudObjectName(at)
    requires DatesAdvance(calls) && forall i :: 0 <= i < |calls| ==> Printable(DateOf(calls[i].env.name))
    requires var os := Lifetime(c, start, calls).commits;
             |os| < 1_000_000 && forall i :: 0 <= i < |os| ==> os[i].sequence == i + 1
    ensures Ascending(KeysOf(c, Lifetime(c, start, calls).commits))
  {
    var os := Lifetime(c, start, calls).commits;
    CommitDates(c, start, calls);
    BelowAMillion(os);
    KeysAscendIff(c, at, os);
  }

  // ---------------------------------------------------------------------
  // Stray objects
  // ---------------------------------------------------------------------

  lemma LongerBatchLongerText(codec: Codec, a: seq<CapturedRequest>, b: seq<CapturedRequest>)
    requires a <= b
    ensures EncodeAll(codec, a) <= EncodeAll(codec, b)
  {
    EncodeAllAppend(codec, a, b[|a|..]);
    assert a + b[|a|..] == b;
  }

  lemma RepeatsCommit(commits: seq<Object>, pending: seq<CapturedRequest>, strays: seq<Object>, i: nat, j: nat)
    requires StraysRepeat(commits, pending, strays) && i < |strays| && j < |commits| && strays[i].sequence == j + 1
    ensures strays[i].batch <= commits[j].batch
  {
  }

  /** A retry on the same date overwrites the stray object with an extension of its content. */
  lemma RetryExtends(c: Config, w: Writer, i: nat, j: nat)
    requires Valid(c, w) && NumbersSeparate(c)
    requires i < |w.strays| && j < |w.commits| && Key(c, w.strays[i]) == Key(c, w.commits[j])
    ensures j == w.strays[i].sequence - 1
    ensures Key(c, w.strays[i]) in w.objects && EncodeAll(c.codec, w.strays[i].batch) <= w.objects[Key(c, w.strays[i])]
  {
    var s, o := w.strays[i], w.commits[j];
    assert o.sequence == j + 1 by { assert Accounted(w.accepted, w.commits, w.pending); }
    RepeatsCommit(w.commits, w.pending, w.strays, i, j);
    LongerBatchLongerText(c.codec, s.batch, o.batch);
  }

  /** Objects the scanner finds in a list of readable keys. */
  function LinesIn(store: map<string, string>, keys: seq<string>): nat
    requires forall i :: 0 <= i < |keys| ==> keys[i] in store
  {
    if keys == [] then 0 else |Segments(store[keys[0]])| + LinesIn(store, keys[1..])
  }

  /** Dropping keys from an ascending list drops their lines. */
  lemma {:induction false} FewerKeysFewerLines(store: map<string, string>, all: seq<string>, some: seq<string>)
    requires Ascending(all) && Ascending(some)
    requires forall i :: 0 <= i < |all| ==> all[i] in store && Segments(store[all[i]]) != []
    requires forall k :: k in some ==> k in all
    ensures forall i :: 0 <= i < |some| ==> some[i] in store
    ensures LinesIn(store, some) <= LinesIn(store, all)
    ensures (exists k :: k in all && k !in some) ==> LinesIn(store, some) < LinesIn(store, all)
  {
    forall i | 0 <= i < |some| ensures some[i] in store {
      assert some[i] in all;
    }
    assert some != [] ==> some[0] in some && some[0] in all;
    if all != [] && some != [] && some[0] == all[0] {
      LessIrreflexive(all[0]);
      forall k | k in some[1..] ensures k in all[1..] {
        var i :| 1 <= i < |some| && some[i] == k;
        assert k in all && Less(all[0], k);
      }
      FewerKeysFewerLines(store, all[1..], some[1..]);
      if k :| k in all && k !in some {
        MissingLater(all, some, k);
      }
    } else if all != [] {
      forall k | k in some ensures k in all[1..] {
        BehindTheFirst(all, some, k);
        assert k in all;
      }
      FewerKeysFewerLines(store, all[1..], some);
    }
  }

  /** What is missing from a list that starts alike is missing from its rest. */
  lemma MissingLater(all: seq<string>, some: seq<string>, k: string)
    requires all != [] && some != [] && some[0] == all[0] && k in all && k !in some
    ensures k in all[1..] && k !in some[1..]
  {
    var i :| 0 <= i < |all| && all[i] == k;
    assert i > 0 && all[1..][i - 1] == k;
  }

  lemma BehindTheFirst(all: seq<string>, some: seq<string>, k: string)
    requires Ascending(all) && Ascending(some) && k in some
    requires all != [] && some[0] in all && some[0] != all[0]
    ensures k != all[0]
  {
    var m :| 0 <= m < |all| && all[m] == some[0];
    var i :| 0 <= i < |some| && some[i] == k;
    assert Less(all[0], some[0]);
    if i > 0 { LessTransitive(all[0], some[0], k); }
    LessIrreflexive(all[0]);
  }

  lemma {:induction false} CountLines(codec: Codec, store: map<string, string>, keys: seq<string>,
                                      batches: seq<seq<CapturedRequest>>)
    requires Lawful(codec) && Holds(codec, store, keys, batches)
    ensures |Concat(batches)| == LinesIn(store, keys)
  {
    if keys == [] {
    } else {
      SegmentsEncodeAll(codec, batches[0]);
      CountLines(codec, store, keys[1..], batches[1..]);
    }
  }

  ghost predicate StoresBatch(codec: Codec, text: string, b: seq<CapturedRequest>) {
    text == EncodeAll(codec, b) && b != [] && Scannable(codec, b)
  }

  /** The text is a non-empty batch of scannable lines. */
  ghost predicate HoldsBatch(codec: Codec, text: string) {
    exists b :: StoresBatch(codec, text, b)
  }

  lemma CommitStores(c: Config, w: Writer, i: nat)
    requires Valid(c, w) && Scannable(c.codec, w.accepted) && i < |w.commits|
    ensures StoresBatch(c.codec, w.objects[Key(c, w.commits[i])], w.commits[i].batch)
  {
    CommitsHold(c, w);
    var keys, bs := KeysOf(c, w.commits), BatchesOf(w.commits);
    assert keys[i] == Key(c, w.commits[i]) && bs[i] == w.commits[i].batch;
  }

  ghost predicate CommitsScannable(codec: Codec, commits: seq<Object>) {
    forall i :: 0 <= i < |commits| ==> Scannable(codec, commits[i].batch)
  }

  lemma StrayStores(codec: Codec, commits: seq<Object>, strays: seq<Object>, i: nat)
    requires StraysRepeat(commits, [], strays) && CommitsScannable(codec, commits) && i < |strays|
    ensures StoresBatch(codec, EncodeAll(codec, strays[i].batch), strays[i].batch)
  {
  }

  lemma AllScannable(c: Config, w: Writer)
    requires Valid(c, w) && Scannable(c.codec, w.accepted)
    ensures CommitsScannable(c.codec, w.commits)
  {
    forall i | 0 <= i < |w.commits| ensures Scannable(c.codec, w.commits[i].batch) {
      CommitStores(c, w, i);
    }
  }

  lemma StoredBatch(c: Config, w: Writer, k: string)
    requires Valid(c, w) && w.pending == [] && Scannable(c.codec, w.accepted) && k in w.objects
    ensures HoldsBatch(c.codec, w.objects[k])
  {
    if i :| 0 <= i < |w.commits| && k == Key(c, w.commits[i]) {
      CommitStores(c, w, i);
    } else {
      var i :| 0 <= i < |w.strays| && k == Key(c, w.strays[i]) && w.objects[k] == EncodeAll(c.codec, w.strays[i].batch);
      AllScannable(c, w);
      StrayStores(c.codec, w.commits, w.strays, i);
    }
  }

  lemma {:induction false} Collect(codec: Codec, store: map<string, string>, keys: seq<string>)
    returns (bs: seq<seq<CapturedRequest>>)
    requires forall i :: 0 <= i < |keys| ==> keys[i] in store && HoldsBatch(codec, store[keys[i]])
    ensures Holds(codec, store, keys, bs)
  {
    if keys == [] {
      bs := [];
    } else {
      var b :| StoresBatch(codec, store[keys[0]], b);
      var rest := Collect(codec, store, keys[1..]);
      bs := [b] + rest;
    }
  }

  /**
   Exactly when uploads that stored their object but reported an error do no harm: the
   accepted requests come back once each if and only if every such upload was retried on
   the same date. A retry that first succeeds on a later date leaves the earlier object
   behind, and its requests are read twice.
   */
  lemma ReadBackExactIff(c: Config, prefix: string, w: Writer, store: map<string, string>, pages: seq<seq<string>>,
                         captureID: string)
    requires Valid(c, w) && w.pending == [] && Ordinary(c, prefix, w, store, pages)
    ensures ReadBack(c.codec, prefix, store, pages, NoFilter(captureID)) == Yield(w.accepted, false)
       <==> StraysOverwritten(c, w)
  {
    if StraysOverwritten(c, w) {
      ReadsEverything(c, prefix, w, store, pages, captureID);
    } else {
      MoreIsRead(c, prefix, w, store, pages, captureID);
    }
  }

  lemma MoreIsRead(c: Config, prefix: string, w: Writer, store: map<string, string>, pages: seq<seq<string>>,
                   captureID: string)
    requires Valid(c, w) && w.pending == [] && Ordinary(c, prefix, w, store, pages) && !StraysOverwritten(c, w)
    ensures |ReadBack(c.codec, prefix, store, pages, NoFilter(captureID)).items| > |w.accepted|
  {
    ListingKeeps(c, prefix, w, store, pages, NoFilter(captureID));
    MoreIsReadFrom(c, w, store, Sort(Keep(Flatten(pages), prefix, NoFilter(captureID))), captureID);
  }

  /** The same for any listing of the stored objects. */
  lemma MoreIsReadFrom(c: Config, w: Writer, store: map<string, string>, listed: seq<string>, captureID: string)
    requires Valid(c, w) && w.pending == [] && !StraysOverwritten(c, w)
    requires Lawful(c.codec) && Scannable(c.codec, w.accepted) && Ascending(KeysOf(c, w.commits))
    requires Ascending(listed) && forall k :: k in listed <==> k in w.objects
    requires forall k :: k in w.objects ==> k in store && store[k] == w.objects[k]
    ensures |FromObjects(Accept(c.codec, NoFilter(captureID)), Fetch(store), listed).items| > |w.accepted|
  {
    var keys, batches := KeysOf(c, w.commits), BatchesOf(w.commits);
    ListedHoldBatches(c, w, store, listed);
    CommitsHold(c, w);
    HoldsInStore(c.codec, w.objects, store, keys, batches);
    CommittedAmongListed(c, w, listed, keys);
    AllCommitted(w);
    CountBoth(c.codec, store, listed, keys, batches, captureID);
  }

  lemma ListedHoldBatches(c: Config, w: Writer, store: map<string, string>, listed: seq<string>)
    requires Valid(c, w) && w.pending == [] && Scannable(c.codec, w.accepted)
    requires forall k :: k in listed <==> k in w.objects
    requires forall k :: k in w.objects ==> k in store && store[k] == w.objects[k]
    ensures forall i :: 0 <= i < |listed| ==> listed[i] in store && HoldsBatch(c.codec, store[listed[i]])
  {
    forall i | 0 <= i < |listed| ensures listed[i] in store && HoldsBatch(c.codec, store[listed[i]]) {
      StoredBatch(c, w, listed[i]);
    }
  }

  lemma AllCommitted(w: Writer)
    requires Accounted(w.accepted, w.commits, w.pending) && w.pending == []
    ensures Concat(BatchesOf(w.commits)) == w.accepted
  {
    ConcatBatches(w.commits);
    assert Batches(w.commits) + [] == Batches(w.commits);
  }

  lemma CountBoth(codec: Codec, store: map<string, string>, all: seq<string>, some: seq<string>,
                  batches: seq<seq<CapturedRequest>>, captureID: string)
    requires Lawful(codec) && Ascending(all) && Ascending(some) && Holds(codec, store, some, batches)
    requires forall i :: 0 <= i < |all| ==> all[i] in store && HoldsBatch(codec, store[all[i]])
    requires forall k :: k in some ==> k in all
    requires exists k :: k in all && k !in some
    ensures |FromObjects(Accept(codec, NoFilter(captureID)), Fetch(store), all).items| > |Concat(batches)|
  {
    var bs := Collect(codec, store, all);
    ReadObjects(codec, store, all, bs, NoFilter(captureID));
    MatchingEverything(Concat(bs), captureID);
    CountLines(codec, store, all, bs);
    CountLines(codec, store, some, batches);
    FewerKeysFewerLines(store, all, some);
  }

  lemma CommittedAmongListed(c: Config, w: Writer, listed: seq<string>, keys: seq<string>)
    requires BackendHolds(c, w.objects, w.commits, w.strays) && !StraysOverwritten(c, w)
    requires keys == KeysOf(c, w.commits) && forall k :: k in listed <==> k in w.objects
    ensures forall k :: k in keys ==> k in listed
    ensures exists k :: k in listed && k !in keys
  {
    forall k | k in keys ensures k in listed {
      var i :| 0 <= i < |keys| && keys[i] == k;
    }
    var i :| 0 <= i < |w.strays| && forall j :: 0 <= j < |w.commits| ==> Key(c, w.strays[i]) != Key(c, w.commits[j]);
    assert Key(c, w.strays[i]) in listed && Key(c, w.strays[i]) !in keys;
  }
}
