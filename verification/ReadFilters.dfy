/**
 What the options of a read let through. Path, verbs and the two time bounds are four filters; each is described
 here without the reader's own test, and a read lets through what all four let through.
 */
module ReadFilters {
  import opened Text
  import opened Options
  import opened Calendar
  import opened Capture
  import opened ObjectWriter
  import opened CaptureReader
  import opened RoundTrip
  import opened Sharding
  import PreshardOptions

  function OnlyPath(prefix: string): ReadOptions {
    NoFilter("").(pathPrefix := prefix)
  }

  function OnlyVerbs(verbs: seq<string>): ReadOptions {
    NoFilter("").(verbs := verbs)
  }

  function OnlyFrom(start: nat): ReadOptions {
    NoFilter("").(start := start)
  }

  function OnlyUntil(end: nat): ReadOptions {
    NoFilter("").(end := end)
  }

  /** The line holds the request. */
  ghost predicate IsLineOf(codec: Codec, line: string, r: CapturedRequest) {
    codec.decode(Token(line)) == Some(r)
  }

  /** A read with these options hands the line out as the request in it. */
  ghost predicate LetsThrough(codec: Codec, opts: ReadOptions, line: string) {
    Accept(codec, opts)(line) == codec.decode(Token(line)) && codec.decode(Token(line)).Some?
  }

  /** What is not handed out as the request in it is not handed out as anything else. */
  lemma AllOrNothing(codec: Codec, opts: ReadOptions, line: string)
    ensures LetsThrough(codec, opts, line) || Accept(codec, opts)(line).None?
    ensures codec.decode(Token(line)).None? ==> Accept(codec, opts)(line).None?
  {
  }

  // ---------------------------------------------------------------------
  // One filter at a time
  // ---------------------------------------------------------------------

  /** The path is the prefix followed by some text. */
  lemma PathFilter(codec: Codec, prefix: string, line: string, r: CapturedRequest)
    requires IsLineOf(codec, line, r)
    ensures LetsThrough(codec, OnlyPath(prefix), line) <==> exists rest :: r.path == prefix + rest
  {
    if LetsThrough(codec, OnlyPath(prefix), line) {
      assert r.path == prefix + r.path[|prefix|..];
    }
  }

  /** The two characters of an ASCII letter, `A` and `a` to `Z` and `z`. */
  predicate SameLetter(a: char, b: char) {
    a == b || ('A' <= a <= 'Z' && b as int == a as int + 32) || ('A' <= b <= 'Z' && a as int == b as int + 32)
  }

  /** Equal up to the case of ASCII letters. */
  predicate SameVerb(a: string, b: string) {
    |a| == |b| && forall i :: 0 <= i < |a| ==> SameLetter(a[i], b[i])
  }

  lemma FoldIsSame(a: string, b: string)
    ensures EqualFold(a, b) <==> SameVerb(a, b)
  {
    if EqualFold(a, b) {
      forall i | 0 <= i < |a| ensures SameLetter(a[i], b[i]) {
        assert Lower(a[i]) == Lower(b[i]);
      }
    }
    if SameVerb(a, b) {
      forall i | 0 <= i < |a| ensures Lower(a[i]) == Lower(b[i]) {
        assert SameLetter(a[i], b[i]);
      }
    }
  }

  /** The verb is one of the verbs, up to the case of its letters; without verbs, any is. */
  lemma VerbFilter(codec: Codec, verbs: seq<string>, line: string, r: CapturedRequest)
    requires IsLineOf(codec, line, r)
    ensures LetsThrough(codec, OnlyVerbs(verbs), line) <==> verbs == [] || exists v :: v in verbs && SameVerb(r.verb, v)
  {
    forall v ensures EqualFold(r.verb, v) <==> SameVerb(r.verb, v) {
      FoldIsSame(r.verb, v);
    }
    if v :| v in verbs && SameVerb(r.verb, v) {
      var i :| 0 <= i < |verbs| && verbs[i] == v;
      assert EqualFold(r.verb, verbs[i]);
    }
  }

  /** The time is not before the start, and not after the end; a bound of 0 is none. */
  lemma TimeFilters(codec: Codec, bound: nat, line: string, r: CapturedRequest)
    requires IsLineOf(codec, line, r)
    ensures LetsThrough(codec, OnlyFrom(bound), line) <==> bound == 0 || bound <= r.timestamp
    ensures LetsThrough(codec, OnlyUntil(bound), line) <==> bound == 0 || r.timestamp <= bound
  {
  }

  /** A read lets through exactly what each of its filters lets through; capture and limit have no part in it. */
  lemma AllFilters(codec: Codec, opts: ReadOptions, line: string)
    ensures LetsThrough(codec, opts, line)
       <==> && LetsThrough(codec, OnlyPath(opts.pathPrefix), line) && LetsThrough(codec, OnlyVerbs(opts.verbs), line)
            && LetsThrough(codec, OnlyFrom(opts.start), line) && LetsThrough(codec, OnlyUntil(opts.end), line)
  {
  }

  // ---------------------------------------------------------------------
  // A whole capture
  // ---------------------------------------------------------------------

  /** What the options ask for. */
  ghost predicate AskedFor(r: CapturedRequest, opts: ReadOptions) {
    && (opts.start == 0 || opts.start <= r.timestamp) && (opts.end == 0 || r.timestamp <= opts.end)
    && (exists rest :: r.path == opts.pathPrefix + rest)
    && (opts.verbs == [] || exists v :: v in opts.verbs && SameVerb(r.verb, v))
  }

  ghost function Asked(opts: ReadOptions): CapturedRequest -> bool {
    (r: CapturedRequest) => AskedFor(r, opts)
  }

  lemma MatchesIsAsked(r: CapturedRequest, opts: ReadOptions)
    ensures Matches(r, opts) <==> AskedFor(r, opts)
  {
    var codec := Codec((x: CapturedRequest) => "", (x: string) => Some(r));
    assert IsLineOf(codec, "", r);
    PathFilter(codec, opts.pathPrefix, "", r);
    VerbFilter(codec, opts.verbs, "", r);
    TimeFilters(codec, opts.start, "", r);
    TimeFilters(codec, opts.end, "", r);
    AllFilters(codec, opts, "");
    assert LetsThrough(codec, opts, "") <==> Matches(r, opts);
  }

  /** A request that was asked for lies in an object uploaded on a date outside the bounds. */
  ghost predicate AskedTooLate(os: seq<Object>, opts: ReadOptions) {
    exists i, r :: 0 <= i < |os| && UploadedOutside(os[i], opts) && r in os[i].batch && AskedFor(r, opts)
  }

  /** A finished capture, read with any options: exactly the written requests that were asked for, in the order in
      which they were written, if and only if none of them was uploaded on a date outside the bounds. */
  lemma FilteredRoundTrip(c: Config, at: Location, start: nat, calls: seq<Call>, store: map<string, string>,
                          pages: seq<seq<string>>, opts: ReadOptions)
    requires WholeLife(c, at, start, calls, store) && IsListing(pages, store)
    requires FirstDate(Split(CaptureDirectory(at))).None?
    ensures ReadBack(c.codec, BuildObjectPrefix(at.prefix, at.captureID), store, pages, opts)
         == Yield(Filter(Accepted(c, start, calls), Asked(opts)), false)
       <==> !AskedTooLate(Lifetime(c, start, calls).commits, opts)
  {
    LifetimeReadIff(c, at, start, calls, store, pages, opts);
    var rs := Accepted(c, start, calls);
    PreshardOptions.MatchingIsFilter(rs, opts);
    forall r ensures Matches(r, opts) <==> AskedFor(r, opts) {
      MatchesIsAsked(r, opts);
    }
    PreshardOptions.FilterSame(rs, PreshardOptions.MatchOf(opts), Asked(opts));
    SameLateness(Lifetime(c, start, calls).commits, opts);
  }

  lemma SameLateness(os: seq<Object>, opts: ReadOptions)
    ensures AskedTooLate(os, opts) <==> LateUpload(os, opts)
  {
    forall r ensures Matches(r, opts) <==> AskedFor(r, opts) {
      MatchesIsAsked(r, opts);
    }
  }

  // ---------------------------------------------------------------------
  // Examples
  // ---------------------------------------------------------------------

  function Request(verb: string, path: string, time: nat): CapturedRequest {
    CapturedRequest("1", time, verb, path, "")
  }

  lemma PathExamples()
    ensures AskedFor(Request("GET", "/api/users", 5), OnlyPath("/api"))
    ensures !AskedFor(Request("GET", "/", 5), OnlyPath("/api"))
    ensures Matches(Request("GET", "/api/users", 5), OnlyPath("/api"))
    ensures !Matches(Request("GET", "/", 5), OnlyPath("/api"))
  {
    assert "/api/users" == "/api" + "/users";
    MatchesIsAsked(Request("GET", "/api/users", 5), OnlyPath("/api"));
    MatchesIsAsked(Request("GET", "/", 5), OnlyPath("/api"));
  }

  lemma VerbExamples()
    ensures Matches(Request("get", "/", 5), OnlyVerbs(["POST", "GET"]))
    ensures !Matches(Request("PUT", "/", 5), OnlyVerbs(["POST", "GET"]))
  {
    var verbs := ["POST", "GET"];
    assert verbs[1] == "GET" && SameVerb("get", "GET") && !SameVerb("PUT", "POST") && !SameVerb("PUT", "GET") by {
      assert "PUT"[0] == 'P' && "GET"[0] == 'G';
    }
    assert Request("get", "/", 5).path == "" + "/" && Request("PUT", "/", 5).path == "" + "/";
    MatchesIsAsked(Request("get", "/", 5), OnlyVerbs(verbs));
    MatchesIsAsked(Request("PUT", "/", 5), OnlyVerbs(verbs));
  }

  lemma TimeExamples()
    ensures Matches(Request("GET", "/", 5), OnlyFrom(5)) && !Matches(Request("GET", "/", 4), OnlyFrom(5))
    ensures Matches(Request("GET", "/", 5), OnlyUntil(5)) && !Matches(Request("GET", "/", 6), OnlyUntil(5))
  {
  }
}
