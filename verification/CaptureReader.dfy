/**
 Reading a capture back: list the objects under a prefix, prune them by the date in their
 key, sort the keys, and stream the matching lines of one object after another.
 */
module CaptureReader {
  import opened Text
  import opened Options
  import opened Collections
  import opened Calendar
  import opened Capture

  /** A time bound of 0 is no bound, a limit that is not positive is no limit. */
  datatype ReadOptions = ReadOptions(captureID: string, start: nat, end: nat, pathPrefix: string, verbs: seq<string>,
    limit: int)

  function NoFilter(captureID: string): ReadOptions {
    ReadOptions(captureID, 0, 0, "", [], 0)
  }

  // ---------------------------------------------------------------------
  // Listing
  // ---------------------------------------------------------------------

  /** `strings.Split(key, "/")`. */
  function Split(key: string): (parts: seq<string>)
    ensures parts != []
  {
    if key == "" then [""]
    else
      var rest := Split(key[1..]);
      if key[0] == '/' then [""] + rest else [[key[0]] + rest[0]] + rest[1..]
  }

  function FirstDate(parts: seq<string>): (d: Option<Date>)
    ensures d.Some? ==> ValidDate(d.value)
  {
    if parts == [] then None
    else if Parse(parts[0]).Some? then Parse(parts[0])
    else FirstDate(parts[1..])
  }

  /** `filterObjectByTime`: a key without a date component is always kept. */
  predicate KeepByDate(key: string, start: nat, end: nat) {
    (start == 0 && end == 0)
    || match FirstDate(Split(key))
       case None => true
       case Some(d) => !(start != 0 && Before(d, DateOf(start))) && !(end != 0 && Before(DateOf(end), d))
  }

  predicate HasPrefix(s: string, p: string) { p <= s }

  predicate HasSuffix(s: string, p: string) { |p| <= |s| && s[|s| - |p|..] == p }

  /** Manifests and other stray files under the prefix are not capture data. */
  predicate DataKey(key: string, prefix: string) {
    HasPrefix(key, prefix) && HasSuffix(key, ".jsonl.gz")
  }

  predicate Listed(key: string, prefix: string, opts: ReadOptions) {
    DataKey(key, prefix) && KeepByDate(key, opts.start, opts.end)
  }

  /** Capture data is listed under its prefix; a manifest never is, whatever the options. */
  lemma ManifestsAreSkipped(dir: string, prefix: string, opts: ReadOptions)
    ensures !Listed(dir + "manifest.json", prefix, opts)
    ensures Listed(prefix + "agent-000001.jsonl.gz", prefix, NoFilter(""))
    ensures forall key, other :: Listed(key, other, opts) ==> other <= key
  {
    var key, data := dir + "manifest.json", prefix + "agent-000001.jsonl.gz";
    assert key[|key| - 9..][8] == key[|key| - 1] == 'n' && ".jsonl.gz"[8] == 'z';
    assert data[|data| - 9..] == ".jsonl.gz";
  }

  function Select(keys: seq<string>, wanted: string -> bool): seq<string> {
    if keys == [] then [] else (if wanted(keys[0]) then [keys[0]] else []) + Select(keys[1..], wanted)
  }

  function Wanted(prefix: string, opts: ReadOptions): string -> bool {
    (key: string) => Listed(key, prefix, opts)
  }

  function Keep(keys: seq<string>, prefix: string, opts: ReadOptions): seq<string> {
    Select(keys, Wanted(prefix, opts))
  }

  lemma {:induction false} SelectAppend(a: seq<string>, b: seq<string>, wanted: string -> bool)
    ensures Select(a + b, wanted) == Select(a, wanted) + Select(b, wanted)
  {
    if a == [] {
      assert a + b == b;
    } else {
      SelectAppend(a[1..], b, wanted);
      assert (a + b)[0] == a[0] && (a + b)[1..] == a[1..] + b;
      Associate(if wanted(a[0]) then [a[0]] else [], Select(a[1..], wanted), Select(b, wanted));
    }
  }

  lemma {:induction false} SelectMembers(keys: seq<string>, wanted: string -> bool)
    ensures forall k :: k in Select(keys, wanted) <==> k in keys && wanted(k)
    ensures Distinct(keys) ==> Distinct(Select(keys, wanted))
  {
    if keys == [] {
    } else {
      SelectMembers(keys[1..], wanted);
      assert forall k :: k in keys <==> k == keys[0] || k in keys[1..];
      if Distinct(keys) {
        assert keys[0] !in keys[1..];
        assert keys[0] !in Select(keys[1..], wanted);
      }
    }
  }

  lemma KeepMembers(keys: seq<string>, prefix: string, opts: ReadOptions)
    ensures forall k :: k in Keep(keys, prefix, opts) <==> k in keys && Listed(k, prefix, opts)
    ensures Distinct(keys) ==> Distinct(Keep(keys, prefix, opts))
  {
    SelectMembers(keys, Wanted(prefix, opts));
  }

  ghost predicate Distinct(s: seq<string>) {
    forall i, j :: 0 <= i < j < |s| ==> s[i] != s[j]
  }

  function Flatten(pages: seq<seq<string>>): seq<string> {
    if pages == [] then [] else Flatten(pages[..|pages| - 1]) + pages[|pages| - 1]
  }

  /** `listObjects`: the backend returns the keys in pages. */
  method ListObjects(pages: seq<seq<string>>, prefix: string, opts: ReadOptions) returns (objects: seq<string>)
    ensures objects == Sort(Keep(Flatten(pages), prefix, opts))
  {
    objects := [];
    for p := 0 to |pages|
      invariant objects == Keep(Flatten(pages[..p]), prefix, opts)
    {
      assert pages[..p + 1][..p] == pages[..p];
      ghost var done := objects;
      var page := pages[p];
      SelectAppend(Flatten(pages[..p]), page, Wanted(prefix, opts));
      for i := 0 to |page|
        invariant objects == done + Keep(page[..i], prefix, opts)
      {
        SelectAppend(page[..i], [page[i]], Wanted(prefix, opts));
        assert page[..i + 1] == page[..i] + [page[i]];
        if Listed(page[i], prefix, opts) {
          objects := objects + [page[i]];
        }
      }
      assert page[..|page|] == page;
    }
    assert pages[..|pages|] == pages;
    objects := Sort(objects);
  }

  // ---------------------------------------------------------------------
  // Filtering
  // ---------------------------------------------------------------------

  function Lower(c: char): char {
    if 'A' <= c <= 'Z' then ((c as int) + 32) as char else c
  }

  predicate EqualFold(a: string, b: string) {
    |a| == |b| && forall i :: 0 <= i < |a| ==> Lower(a[i]) == Lower(b[i])
  }

  predicate Matches(r: CapturedRequest, opts: ReadOptions) {
    && !(opts.start != 0 && r.timestamp < opts.start)
    && !(opts.end != 0 && r.timestamp > opts.end)
    && (opts.pathPrefix == "" || HasPrefix(r.path, opts.pathPrefix))
    && (|opts.verbs| > 0 ==> exists i :: 0 <= i < |opts.verbs| && EqualFold(r.verb, opts.verbs[i]))
  }

  // ---------------------------------------------------------------------
  // Streaming
  // ---------------------------------------------------------------------

  /** The requests a stretch of input yields, and whether it ends in an error. */
  datatype Yield = Yield(items: seq<CapturedRequest>, failed: bool)

  function Prepend(items: seq<CapturedRequest>, y: Yield): Yield {
    Yield(items + y.items, y.failed)
  }

  /** The request a line yields: malformed lines and lines that do not match are skipped. */
  type Acceptor = string -> Option<CapturedRequest>

  function Accept(codec: Codec, opts: ReadOptions): Acceptor {
    (line: string) => match codec.decode(Token(line))
                      case None => None
                      case Some(r) => if Matches(r, opts) then Some(r) else None
  }

  /** The pieces of text a scanner finds in an object, if the object can be opened. */
  type Fetcher = string -> Option<seq<string>>

  function Fetch(store: map<string, string>): Fetcher {
    (key: string) => if key in store then Some(Segments(store[key])) else None
  }

  /** What the lines yield, up to the first line the scanner cannot hold. */
  function FromSegments(accept: Acceptor, segments: seq<string>): Yield {
    if segments == [] then Yield([], false)
    else if TooLong(segments[0]) then Yield([], true)
    else
      var rest := FromSegments(accept, segments[1..]);
      match accept(segments[0])
      case None => rest
      case Some(r) => Prepend([r], rest)
  }

  /** The objects one after another, up to the first that is missing or cannot be scanned. */
  function FromObjects(accept: Acceptor, fetch: Fetcher, keys: seq<string>): Yield
    decreases |keys|, 1
  {
    if keys == [] then Yield([], false)
    else match fetch(keys[0])
         case None => Yield([], true)
         case Some(segments) => Remaining(accept, fetch, segments, keys[1..])
  }

  /** What is left with an object half scanned and others not yet opened. */
  function Remaining(accept: Acceptor, fetch: Fetcher, segments: seq<string>, later: seq<string>): Yield
    decreases |later|, 2
  {
    var here := FromSegments(accept, segments);
    if here.failed then here else Prepend(here.items, FromObjects(accept, fetch, later))
  }

  /** Scanning one line takes its request, if it yields one, off what is left. */
  lemma ScanLine(accept: Acceptor, fetch: Fetcher, segments: seq<string>, later: seq<string>)
    requires segments != [] && !TooLong(segments[0])
    ensures var before := Remaining(accept, fetch, segments, later);
            var after := Remaining(accept, fetch, segments[1..], later);
            match accept(segments[0])
            case None => before == after
            case Some(r) => before == Yield([r] + after.items, after.failed)
  {
    var here := FromSegments(accept, segments[1..]);
    var rest := FromObjects(accept, fetch, later);
    if accept(segments[0]).Some? {
      var r := accept(segments[0]).value;
      assert [r] + (here.items + rest.items) == ([r] + here.items) + rest.items;
    }
  }

  datatype Item = Got(request: CapturedRequest) | Done | Error

  /** One call of Next: the first pending request, unless there is none or the limit is used up. */
  ghost predicate Delivers(limit: int, before: Yield, total: nat, item: Item, after: Yield, total': nat) {
    if before.items == [] then
      item == (if before.failed then Error else Done) && total' == total
    else if 0 < limit <= total then
      item == Done && total' == total
    else
      item == Got(before.items[0]) && total' == total + 1 && after == Yield(before.items[1..], before.failed)
  }

  /** What is left for a reader in a given position. */
  function Left(accept: Acceptor, fetch: Fetcher, scanner: Option<seq<string>>, later: seq<string>): Yield {
    match scanner
    case None => FromObjects(accept, fetch, later)
    case Some(segments) => Remaining(accept, fetch, segments, later)
  }

  function From(keys: seq<string>, i: int): seq<string>
    requires 0 <= i
  {
    if i >= |keys| then [] else keys[i..]
  }

  /** What comes from object i on: its lines first, nothing at all if it cannot be opened. */
  lemma Advance(accept: Acceptor, fetch: Fetcher, objects: seq<string>, i: int)
    requires 0 <= i
    ensures i >= |objects| ==> FromObjects(accept, fetch, From(objects, i)) == Yield([], false)
    ensures i < |objects| && fetch(objects[i]).None? ==> FromObjects(accept, fetch, From(objects, i)) == Yield([], true)
    ensures i < |objects| && fetch(objects[i]).Some? ==>
      FromObjects(accept, fetch, From(objects, i)) == Left(accept, fetch, fetch(objects[i]), From(objects, i + 1))
  {
    if i < |objects| {
      var later := From(objects, i);
      assert later[0] == objects[i] && later[1..] == From(objects, i + 1);
    }
  }

  /** `S3Reader`, `GCSReader` and `FilesystemReader` over an object store that does not change while it is read. */
  class Reader {
    const codec: Codec
    const fetch: Fetcher
    var accept: Acceptor
    var opts: ReadOptions
    var started: bool
    var closed: bool
    var objects: seq<string>
    var objectIndex: int
    var scanner: Option<seq<string>>
    var totalRead: nat
    /** Everything the reader has yet to hand out, ignoring the limit. */
    ghost var pending: Yield

    constructor (codec: Codec, store: map<string, string>)
      ensures this.codec == codec && fetch == Fetch(store)
      ensures Valid() && !started && !closed && totalRead == 0
    {
      this.codec := codec;
      fetch := Fetch(store);
      opts := NoFilter("");
      accept := Accept(codec, NoFilter(""));
      started, closed, objects, objectIndex, scanner, totalRead := false, false, [], -1, None, 0;
    }

    ghost predicate Valid()
      reads this
    {
      started ==>
        && -1 <= objectIndex
        && (scanner.Some? ==> objectIndex < |objects|)
        && pending == Left(accept, fetch, scanner, From(objects, objectIndex + 1))
    }

    /** The keys come from a listing of the store, in pages. */
    method Open(storagePrefix: string, pages: seq<seq<string>>, options: ReadOptions) returns (ok: bool)
      requires Valid()
      modifies this
      ensures Valid() && ok == !old(started)
      ensures !ok ==> unchanged(this)
      ensures ok ==>
        && started && opts == options && totalRead == old(totalRead) && closed == old(closed)
        && objects == Sort(Keep(Flatten(pages), BuildObjectPrefix(storagePrefix, options.captureID), options))
        && accept == Accept(codec, options) && pending == FromObjects(accept, fetch, objects)
    {
      if started { return false; }
      opts, started := options, true;
      objects := ListObjects(pages, BuildObjectPrefix(storagePrefix, options.captureID), options);
      objectIndex := -1;
      scanner := None;
      assert From(objects, 0) == objects;
      accept := Accept(codec, options);
      pending := FromObjects(accept, fetch, objects);
      return true;
    }

    method Next() returns (item: Item)
      requires Valid()
      modifies this`objectIndex, this`scanner, this`totalRead, this`pending
      ensures Valid()
      ensures !started ==> item == Error && unchanged(this)
      ensures started && closed ==> item == Done && unchanged(this)
      ensures started && !closed ==> Delivers(opts.limit, old(pending), old(totalRead), item, pending, totalRead)
    {
      if !started { return Error; }
      if closed { return Done; }
      while true
        invariant Valid() && totalRead == old(totalRead) && pending == old(pending)
        decreases |objects| - objectIndex, if scanner.Some? then |scanner.value| else 0
      {
        var stop;
        if scanner.Some? && scanner.value != [] {
          stop := NextLine();
        } else {
          stop := NextObject();
        }
        if stop.Some? { return stop.value; }
      }
    }

    /** One line of the current object; None if it is passed over. */
    method NextLine() returns (stop: Option<Item>)
      requires Valid() && started && scanner.Some? && scanner.value != []
      modifies this`scanner, this`totalRead, this`pending
      ensures Valid()
      ensures match stop
              case None => pending == old(pending) && totalRead == old(totalRead) && scanner.Some?
                  && |scanner.value| < |old(scanner).value|
              case Some(item) => Delivers(opts.limit, old(pending), old(totalRead), item, pending, totalRead)
    {
      if TooLong(scanner.value[0]) {
        return Some(Error);
      }
      var hit := ScanOne();
      if hit.None? { return None; }
      if opts.limit > 0 && totalRead >= opts.limit { return Some(Done); }
      totalRead := totalRead + 1;
      stop := Some(Got(hit.value));
    }

    /** Take one line off the scanner; `hit` is its request if it is well-formed and matches. */
    method ScanOne() returns (hit: Option<CapturedRequest>)
      requires Valid() && started && scanner.Some? && scanner.value != [] && !TooLong(scanner.value[0])
      modifies this`scanner, this`pending
      ensures Valid() && scanner.Some? && |scanner.value| < |old(scanner).value|
      ensures old(pending) == match hit
                              case None => pending
                              case Some(r) => Yield([r] + pending.items, pending.failed)
    {
      var line := scanner.value[0];
      ScanLine(accept, fetch, scanner.value, From(objects, objectIndex + 1));
      scanner := Some(scanner.value[1..]);
      pending := Left(accept, fetch, scanner, From(objects, objectIndex + 1));
      hit := accept(line);
    }

    /** Move on to the next object; `end` is Done after the last one, Error if it cannot be opened. */
    method NextObject() returns (end: Option<Item>)
      requires Valid() && started && (scanner.Some? ==> scanner.value == [])
      modifies this`scanner, this`objectIndex, this`pending
      ensures Valid() && objectIndex == old(objectIndex) + 1
      ensures match end
              case None => scanner.Some? && pending == old(pending) && objectIndex < |objects|
              case Some(item) => old(pending) == Yield([], item == Error) && (item == Error || item == Done)
    {
      Advance(accept, fetch, objects, objectIndex + 1);
      scanner := None;
      objectIndex := objectIndex + 1;
      if objectIndex < |objects| {
        scanner := fetch(objects[objectIndex]);
        end := if scanner.None? then Some(Error) else None;
      } else {
        end := Some(Done);
      }
      pending := Left(accept, fetch, scanner, From(objects, objectIndex + 1));
    }
  }

  /** The first `limit` elements, or all of them when there is no limit. */
  function Limited(items: seq<CapturedRequest>, limit: int): seq<CapturedRequest> {
    if 0 < limit < |items| then items[..limit] else items
  }

  /** The consumer's loop: call Next until it stops handing out requests. */
  method Drain(reader: Reader) returns (out: seq<CapturedRequest>, failed: bool)
    requires reader.Valid() && reader.started && !reader.closed && reader.totalRead == 0
    modifies reader
    ensures var all := old(reader.pending);
            && out == Limited(all.items, old(reader.opts.limit))
            && (failed <==> all.failed && out == all.items)
  {
    ghost var all, limit := reader.pending, reader.opts.limit;
    out, failed := [], false;
    while true
      invariant reader.Valid() && reader.started && !reader.closed && reader.opts.limit == limit
      invariant reader.totalRead == |out| && (limit > 0 ==> |out| <= limit)
      invariant out + reader.pending.items == all.items && reader.pending.failed == all.failed
      decreases |reader.pending.items|
    {
      ghost var before := reader.pending.items;
      assert before != [] ==> out + before == (out + [before[0]]) + before[1..];
      var item := reader.Next();
      match item
      case Got(r) => out := out + [r];
      case Done => return out, false;
      case Error => return out, true;
    }
  }

  // ---------------------------------------------------------------------
  // Pruning by date
  // ---------------------------------------------------------------------

  lemma DatesFollowTime(t: nat, u: nat)
    requires t <= u
    ensures !Before(DateOf(u), DateOf(t))
  {
    CivilMonotone(u / DAY, t / DAY);
    assert t / DAY <= u / DAY;
  }

  /**
   Exactly when skipping whole objects by date is safe: an object that contains the request
   is kept under every set of options the request matches if and only if its key carries no
   date or the date on which the request was captured. In particular an object named after
   midnight can hide requests captured before it.
   */
  lemma PruningLosslessIff(key: string, r: CapturedRequest)
    requires r.timestamp > 0
    ensures (forall opts :: Matches(r, opts) ==> KeepByDate(key, opts.start, opts.end))
       <==> FirstDate(Split(key)) in {None, Some(DateOf(r.timestamp))}
  {
    var date := FirstDate(Split(key));
    var from := ReadOptions("", r.timestamp, 0, "", [], 0);
    var until := ReadOptions("", 0, r.timestamp, "", [], 0);
    assert Matches(r, from) && Matches(r, until);
    if date.Some? && date.value != DateOf(r.timestamp) {
      assert !KeepByDate(key, from.start, from.end) || !KeepByDate(key, until.start, until.end);
    } else {
      forall opts | Matches(r, opts) ensures KeepByDate(key, opts.start, opts.end) {
        if opts.start != 0 { DatesFollowTime(opts.start, r.timestamp); }
        if opts.end != 0 { DatesFollowTime(r.timestamp, opts.end); }
      }
    }
  }

  /** Splitting a text at a slash it contains. */
  lemma {:induction false} SplitAt(s: string, a: string, b: string)
    requires |s| == |a| + 1 + |b| && s[..|a|] == a && s[|a|] == '/' && s[|a| + 1..] == b
    ensures Split(s) == Split(a) + Split(b)
  {
    if a == "" {
      assert s[1..] == b;
      assert Split(a) == [""];
    } else {
      var t := s[1..];
      assert t[..|a| - 1] == a[1..] && t[|a|..] == b;
      SplitAt(t, a[1..], b);
      assert s[0] == a[0];
      if a[0] == '/' {
        Associate([""], Split(a[1..]), Split(b));
      } else {
        LongerFirst(a[0], Split(a[1..]), Split(b));
      }
    }
  }

  lemma LongerFirst(c: char, x: seq<string>, y: seq<string>)
    requires x != []
    ensures [[c] + (x + y)[0]] + (x + y)[1..] == ([[c] + x[0]] + x[1..]) + y
  {
  }

  lemma SplitAppend(a: string, b: string)
    ensures Split(a + "/" + b) == Split(a) + Split(b)
  {
    SplitAt(a + "/" + b, a, b);
  }

  lemma {:induction false} FirstDateAppend(a: seq<string>, b: seq<string>)
    ensures FirstDate(a + b) == if FirstDate(a).Some? then FirstDate(a) else FirstDate(b)
  {
    if a == [] {
      assert a + b == b;
    } else {
      FirstDateAppend(a[1..], b);
      assert (a + b)[1..] == a[1..] + b;
    }
  }

  /** The directory part of a capture's keys. */
  function CaptureDirectory(at: Location): string {
    var trimmed := Trim(at.prefix, {'/'});
    Join((if trimmed != "" then [trimmed] else []) + [at.captureID])
  }

  /** The date a reader takes from a written key is the date on which the object was named,
      unless a component of the storage prefix or capture ID happens to be a date itself. */
  lemma WrittenKeyDate(at: Location, t: nat, sequence: nat)
    requires at.captureID != "" && Printable(DateOf(t))
    ensures var inDirectory := FirstDate(Split(CaptureDirectory(at)));
            FirstDate(Split(ObjectKey(at, t, sequence))) == if inDirectory.Some? then inDirectory else Some(DateOf(t))
  {
    KeyShape(at, t, sequence);
    var dir, date := CaptureDirectory(at), Format(DateOf(t));
    var file := PodName(at.agentPod) + "-" + (Padded(sequence) + ".jsonl.gz");
    KeyAsPath(dir, date, PodName(at.agentPod), Padded(sequence) + ".jsonl.gz");
    SplitAppend(dir, date + "/" + file);
    SplitAppend(date, file);
    ParseFormat(DateOf(t));
    NoSlash(date);
    FirstDateAppend(Split(dir), Split(date) + Split(file));
    FirstDateAppend(Split(date), Split(file));
  }

  lemma {:induction false} NoSlash(s: string)
    requires '/' !in s
    ensures Split(s) == [s]
  {
    if s == "" {
    } else {
      NoSlash(s[1..]);
      assert s == [s[0]] + s[1..];
      assert s[0] in s;
    }
  }

  lemma KeyAsPath(dir: string, date: string, pod: string, rest: string)
    ensures (dir + "/") + (date + ("/" + pod + "-")) + rest == dir + "/" + (date + "/" + (pod + "-" + rest))
  {
  }
}
