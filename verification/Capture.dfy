/**
 What is stored: captured requests, the JSON-lines text they are written as, the
 way a scanner cuts that text back into lines, and the keys objects are stored under.
 Compression is left transparent: an object holds the text that was compressed into it.
 */
module Capture {
  import opened Text
  import opened Options
  import opened Calendar

  /** `timestamp` counts nanoseconds from 0001-01-01 UTC, so 0 is Go's zero time.
      `rest` stands for the fields no component interprets (headers, body, metadata). */
  datatype CapturedRequest = CapturedRequest(id: string, timestamp: nat, verb: string, path: string, rest: string)

  const DAY: nat := 86_400_000_000_000

  /** The UTC date of an instant. */
  function DateOf(t: nat): Date {
    Civil(t / DAY)
  }

  // ---------------------------------------------------------------------
  // JSON lines
  // ---------------------------------------------------------------------

  /** `json.Marshal` and `json.Unmarshal` on captured requests. */
  datatype Codec = Codec(encode: CapturedRequest -> string, decode: string -> Option<CapturedRequest>)

  /** JSON escapes control characters, and decoding inverts encoding. */
  ghost predicate Lawful(codec: Codec) {
    forall r ::
      && '\n' !in codec.encode(r) && '\r' !in codec.encode(r)
      && codec.decode(codec.encode(r)) == Some(r)
  }

  function EncodeAll(codec: Codec, rs: seq<CapturedRequest>): string {
    if rs == [] then "" else codec.encode(rs[0]) + "\n" + EncodeAll(codec, rs[1..])
  }

  lemma {:induction false} EncodeAllAppend(codec: Codec, a: seq<CapturedRequest>, b: seq<CapturedRequest>)
    ensures EncodeAll(codec, a + b) == EncodeAll(codec, a) + EncodeAll(codec, b)
  {
    if a == [] {
      assert a + b == b;
    } else {
      EncodeAllAppend(codec, a[1..], b);
      assert (a + b)[1..] == a[1..] + b && (a + b)[0] == a[0];
    }
  }

  lemma EncodeAllSnoc(codec: Codec, a: seq<CapturedRequest>, r: CapturedRequest)
    ensures EncodeAll(codec, a + [r]) == EncodeAll(codec, a) + (codec.encode(r) + "\n")
  {
    EncodeAllAppend(codec, a, [r]);
    assert [r][1..] == [];
  }

  // ---------------------------------------------------------------------
  // Scanning
  // ---------------------------------------------------------------------

  /** A scanner line is at most this long, its newline included. */
  const MAX_LINE: nat := 10 * 1024 * 1024

  function IndexOf(s: string, c: char): (i: nat)
    ensures i <= |s|
    ensures i < |s| ==> s[i] == c
    ensures c !in s[..i]
  {
    if s == "" || s[0] == c then 0 else 1 + IndexOf(s[1..], c)
  }

  /** The pieces between newlines; an empty piece after the last newline does not count. */
  function Segments(data: string): seq<string>
    decreases |data|
  {
    if data == "" then []
    else
      var i := IndexOf(data, '\n');
      if i == |data| then [data] else [data[..i]] + Segments(data[i + 1..])
  }

  /** What the scanner hands out for one piece: a trailing carriage return is dropped. */
  function Token(segment: string): string {
    if segment != "" && segment[|segment| - 1] == '\r' then segment[..|segment| - 1] else segment
  }

  predicate TooLong(segment: string) { |segment| >= MAX_LINE }

  /** Lines that end with a carriage return and a newline are read without either, and a line of 10 MiB or more
      is too long. */
  lemma LineEnds(line: string)
    ensures Token(line + ['\r']) == line
    ensures '\r' !in line ==> Token(line) == line
    ensures TooLong(line) <==> |line| >= 10_485_760
  {
    assert (line + ['\r'])[..|line|] == line;
    if line != "" {
      assert line[|line| - 1] in line;
    }
  }

  lemma SegmentsCons(x: string, rest: string)
    requires '\n' !in x
    ensures Segments(x + "\n" + rest) == [x] + Segments(rest)
  {
    var data := x + "\n" + rest;
    var i := IndexOf(data, '\n');
    assert data[|x|] == '\n';
    assert forall k :: 0 <= k < |x| ==> data[k] == x[k];
    assert forall k :: 0 <= k < i ==> data[..i][k] == data[k];
    assert i == |x|;
    assert data[..i] == x && data[i + 1..] == rest;
  }

  /** The pieces of an encoding are the encodings, in order. */
  lemma {:induction false} SegmentsEncodeAll(codec: Codec, rs: seq<CapturedRequest>)
    requires Lawful(codec)
    ensures |Segments(EncodeAll(codec, rs))| == |rs|
    ensures forall i :: 0 <= i < |rs| ==> Segments(EncodeAll(codec, rs))[i] == codec.encode(rs[i])
  {
    if rs == [] {
    } else {
      SegmentsEncodeAll(codec, rs[1..]);
      SegmentsCons(codec.encode(rs[0]), EncodeAll(codec, rs[1..]));
    }
  }

  // ---------------------------------------------------------------------
  // Object keys
  // ---------------------------------------------------------------------

  /** `strings.Trim` of the characters in `cut`. */
  function Trim(s: string, cut: set<char>): (t: string)
    ensures t != "" ==> t[0] !in cut && t[|t| - 1] !in cut
    decreases |s|
  {
    if s == "" then ""
    else if s[0] in cut then Trim(s[1..], cut)
    else if s[|s| - 1] in cut then Trim(s[..|s| - 1], cut)
    else s
  }

  ghost predicate AllIn(s: string, cut: set<char>) {
    forall i :: 0 <= i < |s| ==> s[i] in cut
  }

  /** Nothing but such characters is taken away, and only at the two ends. */
  lemma {:induction false} TrimOnly(s: string, cut: set<char>) returns (left: string, right: string)
    ensures s == left + Trim(s, cut) + right && AllIn(left, cut) && AllIn(right, cut)
    decreases |s|
  {
    left, right := "", "";
    if s == "" {
    } else if s[0] in cut {
      left, right := TrimOnly(s[1..], cut);
      left := [s[0]] + left;
      assert s == [s[0]] + s[1..];
    } else if s[|s| - 1] in cut {
      left, right := TrimOnly(s[..|s| - 1], cut);
      right := right + [s[|s| - 1]];
      assert s == s[..|s| - 1] + [s[|s| - 1]];
    }
  }

  lemma {:induction false} TrimAll(s: string, cut: set<char>)
    requires AllIn(s, cut)
    ensures Trim(s, cut) == ""
  {
    if s == "" {
    } else {
      TrimAll(s[1..], cut);
    }
  }

  /** A name that begins and ends with none of them stays as it is. */
  lemma TrimKeeps(s: string, cut: set<char>)
    requires s == "" || (s[0] !in cut && s[|s| - 1] !in cut)
    ensures Trim(s, cut) == s
  {
  }

  function Join(parts: seq<string>): string {
    if parts == [] then "" else if |parts| == 1 then parts[0] else parts[0] + "/" + Join(parts[1..])
  }

  /** The directory a capture's objects live in, with its trailing slash. */
  function BuildObjectPrefix(storagePrefix: string, captureID: string): string {
    var trimmed := Trim(storagePrefix, {'/'});
    var parts := (if trimmed != "" then [trimmed] else []) + (if captureID != "" then [captureID] else []);
    if parts == [] then "" else Join(parts) + "/"
  }

  /** The code points of `unicode.IsSpace`. */
  const SPACE_CODES: set<int> :=
    {0x09, 0x0a, 0x0b, 0x0c, 0x0d, 0x20, 0x85, 0xa0, 0x1680, 0x2000, 0x2001, 0x2002, 0x2003, 0x2004, 0x2005, 0x2006,
     0x2007, 0x2008, 0x2009, 0x200a, 0x2028, 0x2029, 0x202f, 0x205f, 0x3000}

  const SPACES: set<char> := set n | n in SPACE_CODES && n < 0xd800 :: n as char

  function PodName(agentPod: string): string {
    var pod := Trim(agentPod, SPACES);
    if pod == "" then "unknown-agent" else pod
  }

  /** An agent without a name is called `unknown-agent`, and any other by its name without the blanks around it. */
  lemma PodNames(agentPod: string)
    ensures AllIn(agentPod, SPACES) ==> PodName(agentPod) == "unknown-agent"
    ensures agentPod != "" && agentPod[0] !in SPACES && agentPod[|agentPod| - 1] !in SPACES ==>
      PodName(agentPod) == agentPod
    ensures PodName(agentPod) != ""
  {
    if AllIn(agentPod, SPACES) {
      TrimAll(agentPod, SPACES);
    }
  }

  function ObjectFileName(agentPod: string, sequence: nat): string {
    PodName(agentPod) + "-" + Padded(sequence) + ".jsonl.gz"
  }

  /** Where a writer puts its objects. */
  datatype Location = Location(prefix: string, captureID: string, agentPod: string)

  function ObjectKey(at: Location, t: nat, sequence: nat): string {
    var trimmed := Trim(at.prefix, {'/'});
    Join((if trimmed != "" then [trimmed] else [])
         + [at.captureID, Format(DateOf(t)), ObjectFileName(at.agentPod, sequence)])
  }

  /** Everything in a key before the number. */
  function KeyStem(at: Location, t: nat): string {
    BuildObjectPrefix(at.prefix, at.captureID) + (Format(DateOf(t)) + ("/" + PodName(at.agentPod) + "-"))
  }

  lemma JoinKey(trimmed: string, captureID: string, date: string, file: string)
    ensures Join([captureID, date, file]) == captureID + "/" + (date + "/" + file)
    ensures Join([trimmed, captureID, date, file]) == trimmed + "/" + (captureID + "/" + (date + "/" + file))
    ensures Join([trimmed, captureID]) == trimmed + "/" + captureID
  {
    assert [trimmed, captureID, date, file][1..] == [captureID, date, file];
    assert [captureID, date, file][1..] == [date, file] && [date, file][1..] == [file];
    assert Join([date, file]) == date + "/" + file;
    assert [trimmed, captureID][1..] == [captureID];
  }

  /** A written key is the reader's prefix for that capture, then the date, pod and number. */
  lemma KeyShape(at: Location, t: nat, sequence: nat)
    requires at.captureID != ""
    ensures ObjectKey(at, t, sequence) == KeyStem(at, t) + (Padded(sequence) + ".jsonl.gz")
    ensures BuildObjectPrefix(at.prefix, at.captureID) <= ObjectKey(at, t, sequence)
  {
    KeyParts(Trim(at.prefix, {'/'}), at.captureID, Format(DateOf(t)), PodName(at.agentPod), Padded(sequence));
  }

  lemma KeyParts(trimmed: string, captureID: string, date: string, pod: string, number: string)
    ensures var file := pod + "-" + number + ".jsonl.gz";
            var parts := (if trimmed != "" then [trimmed] else []) + [captureID];
            Join((if trimmed != "" then [trimmed] else []) + [captureID, date, file])
            == (Join(parts) + "/") + (date + ("/" + pod + "-")) + (number + ".jsonl.gz")
  {
    var file := pod + "-" + number + ".jsonl.gz";
    JoinKey(trimmed, captureID, date, file);
    if trimmed != "" {
      assert [trimmed] + [captureID, date, file] == [trimmed, captureID, date, file];
      assert [trimmed] + [captureID] == [trimmed, captureID];
    } else {
      assert [] + [captureID, date, file] == [captureID, date, file];
    }
  }

  /** Keys of one writer sort by date first. */
  lemma KeyDateOrder(at: Location, t: nat, m: nat, u: nat, n: nat)
    requires at.captureID != "" && Printable(DateOf(t)) && Printable(DateOf(u))
    requires t / DAY < u / DAY
    ensures Less(ObjectKey(at, t, m), ObjectKey(at, u, n))
  {
    KeyShape(at, t, m);
    KeyShape(at, u, n);
    CivilMonotone(t / DAY, u / DAY);
    FormatOrder(DateOf(t), DateOf(u));
    DatedOrder(BuildObjectPrefix(at.prefix, at.captureID), Format(DateOf(t)), Format(DateOf(u)),
               "/" + PodName(at.agentPod) + "-", Padded(m) + ".jsonl.gz", Padded(n) + ".jsonl.gz");
  }

  lemma DatedOrder(base: string, d: string, e: string, pod: string, f: string, g: string)
    requires |d| == |e| && Less(d, e)
    ensures Less(base + (d + pod) + f, base + (e + pod) + g)
  {
    assert base + (d + pod) + f == base + (d + (pod + f)) && base + (e + pod) + g == base + (e + (pod + g));
    LessCommonPrefix(base, d + (pod + f), e + (pod + g));
    LessExtend(d, e, pod + f, pod + g);
  }

  /** On one date, keys sort as their numbers print. */
  lemma KeySequenceOrder(at: Location, t: nat, m: nat, u: nat, n: nat)
    requires at.captureID != "" && t / DAY == u / DAY
    ensures Less(ObjectKey(at, t, m), ObjectKey(at, u, n)) == Less(Padded(m) + ".jsonl.gz", Padded(n) + ".jsonl.gz")
  {
    KeyShape(at, t, m);
    KeyShape(at, u, n);
    LessCommonPrefix(KeyStem(at, t), Padded(m) + ".jsonl.gz", Padded(n) + ".jsonl.gz");
  }

  /** Consecutive objects sort in write order, except that on one and the same date an
      object whose number prints longer than its predecessor's sorts before it. */
  lemma NextKeyOrder(at: Location, t: nat, n: nat, u: nat)
    requires at.captureID != "" && Printable(DateOf(t)) && Printable(DateOf(u))
    requires t / DAY <= u / DAY
    ensures Less(ObjectKey(at, t, n), ObjectKey(at, u, n + 1)) <==> t / DAY < u / DAY || !Overflows(n + 1)
  {
    if t / DAY < u / DAY {
      KeyDateOrder(at, t, n, u, n + 1);
    } else {
      KeySequenceOrder(at, t, n, u, n + 1);
      PaddedSuccessor(n);
      if Overflows(n + 1) {
        assert (Padded(n) + ".jsonl.gz")[0] == '9' && (Padded(n + 1) + ".jsonl.gz")[0] == '1';
      } else {
        SuffixOrder(Padded(n), Padded(n + 1), ".jsonl.gz");
      }
    }
  }

  lemma SuffixOrder(a: string, b: string, suffix: string)
    requires |a| == |b|
    ensures Less(a + suffix, b + suffix) == Less(a, b)
  {
    LessTotal(a, b);
    LessIrreflexive(a);
    LessIrreflexive(a + suffix);
    if Less(a, b) {
      LessExtend(a, b, suffix, suffix);
    } else if Less(b, a) {
      LessExtend(b, a, suffix, suffix);
      LessAsymmetric(b + suffix, a + suffix);
    }
  }
}
