/**
 The buffering writer behind every storage backend: lines collect in a buffer, a flush
 uploads the buffer as the next numbered object, and an upload may be refused or may
 store its object and still report an error.
 */
module ObjectWriter {
  import opened Text
  import opened Options
  import opened Calendar
  import opened Capture

  /** How an upload ends. `StoredThenFailed`: the object exists although the caller sees an error. */
  datatype Upload = Stored | Rejected | StoredThenFailed

  /** What one call sees of the outside world: three clock readings and the fate of its upload. */
  datatype Env = Env(check: nat, name: nat, done: nat, upload: Upload)

  datatype Result = Ok | NilRequest | WriterClosed | UploadFailed

  /** `objectName` gives the key for a clock reading and a sequence number. */
  datatype Config = Config(objectName: (nat, nat) -> string, flushInterval: nat, maxBufferBytes: nat, codec: Codec)

  /** `normalizeFlushInterval` and `normalizeMaxBufferBytes`. */
  function NewConfig(objectName: (nat, nat) -> string, flushInterval: int, maxBufferBytes: int,
                     codec: Codec): (c: Config)
    ensures c.flushInterval > 0 && c.maxBufferBytes > 0 && c.objectName == objectName && c.codec == codec
    ensures flushInterval > 0 ==> c.flushInterval == flushInterval
    ensures flushInterval <= 0 ==> c.flushInterval == 5_000_000_000
    ensures maxBufferBytes > 0 ==> c.maxBufferBytes == maxBufferBytes
    ensures maxBufferBytes <= 0 ==> c.maxBufferBytes == 10_485_760
  {
    Config(objectName,
           if flushInterval <= 0 then 5_000_000_000 else flushInterval,
           if maxBufferBytes <= 0 then 10 * 1024 * 1024 else maxBufferBytes,
           codec)
  }

  /** An object that reached the backend: when it was named, its number, the requests in it. */
  datatype Object = Object(t: nat, sequence: nat, batch: seq<CapturedRequest>)

  /**
   The writer and its backend. The first four fields are the writer's own, `objects` is
   the backend. The rest is history: the requests accepted into the buffer so far, those
   of them still buffered, the uploads that succeeded, and those that stored their object
   but reported an error.
   */
  datatype Writer = Writer(
    sequence: nat, buffer: string, closed: bool, lastFlush: nat,
    objects: map<string, string>,
    accepted: seq<CapturedRequest>, pending: seq<CapturedRequest>,
    commits: seq<Object>, strays: seq<Object>)

  function Fresh(now: nat): Writer {
    Writer(0, "", false, now, map[], [], [], [], [])
  }

  function Key(c: Config, o: Object): string {
    c.objectName(o.t, o.sequence)
  }

  // ---------------------------------------------------------------------
  // Operations
  // ---------------------------------------------------------------------

  function AfterFlushLocked(c: Config, w: Writer, env: Env): (Writer, Result) {
    if w.buffer == "" then (w.(lastFlush := env.done), Ok)
    else
      var o := Object(env.name, w.sequence + 1, w.pending);
      match env.upload
      case Rejected => (w, UploadFailed)
      case StoredThenFailed =>
        (w.(objects := w.objects[Key(c, o) := w.buffer], strays := w.strays + [o]), UploadFailed)
      case Stored =>
        (w.(objects := w.objects[Key(c, o) := w.buffer], commits := w.commits + [o],
            buffer := "", pending := [], sequence := w.sequence + 1, lastFlush := env.done), Ok)
  }

  /** The writer with one more line in its buffer. */
  function Appended(c: Config, w: Writer, r: CapturedRequest): Writer {
    w.(buffer := w.buffer + (c.codec.encode(r) + "\n"), accepted := w.accepted + [r], pending := w.pending + [r])
  }

  function AfterWrite(c: Config, w: Writer, req: Option<CapturedRequest>, env: Env): (Writer, Result) {
    if req.None? then (w, NilRequest)
    else if w.closed then (w, WriterClosed)
    else
      var v := Appended(c, w, req.value);
      if |v.buffer| >= c.maxBufferBytes || env.check - v.lastFlush >= c.flushInterval
      then AfterFlushLocked(c, v, env)
      else (v, Ok)
  }

  function AfterFlush(c: Config, w: Writer, env: Env): (Writer, Result) {
    if w.closed then (w, WriterClosed) else AfterFlushLocked(c, w, env)
  }

  function AfterClose(c: Config, w: Writer, env: Env): (Writer, Result) {
    if w.closed then (w, Ok)
    else
      var (v, r) := AfterFlushLocked(c, w, env);
      if r.Ok? then (v.(closed := true), Ok) else (v, r)
  }

  // ---------------------------------------------------------------------
  // What every operation keeps
  // ---------------------------------------------------------------------

  function Batches(os: seq<Object>): seq<CapturedRequest> {
    if os == [] then [] else Batches(os[..|os| - 1]) + os[|os| - 1].batch
  }

  /** The text of a list of objects, in order. */
  function Payloads(codec: Codec, os: seq<Object>): string {
    if os == [] then "" else Payloads(codec, os[..|os| - 1]) + EncodeAll(codec, os[|os| - 1].batch)
  }

  /** The commits are numbered from 1, none is empty, and with the buffer they are everything accepted. */
  ghost predicate Accounted(accepted: seq<CapturedRequest>, commits: seq<Object>, pending: seq<CapturedRequest>) {
    && Batches(commits) + pending == accepted
    && forall i :: 0 <= i < |commits| ==> commits[i].sequence == i + 1 && commits[i].batch != []
  }

  /** A stray object repeats the start of the commit that took its number or, while that
      number is still open, the start of the buffer. */
  ghost predicate StraysRepeat(commits: seq<Object>, pending: seq<CapturedRequest>, strays: seq<Object>) {
    forall i :: 0 <= i < |strays| ==>
      && 1 <= strays[i].sequence <= |commits| + 1 && strays[i].batch != []
      && strays[i].batch <= (if strays[i].sequence <= |commits| then commits[strays[i].sequence - 1].batch else pending)
  }

  /** The backend holds the committed and the stray objects and nothing else; a committed
      object has its committed content, any other key the text of a stray stored under it. */
  ghost predicate BackendHolds(c: Config, objects: map<string, string>, commits: seq<Object>, strays: seq<Object>) {
    && (forall i :: 0 <= i < |commits| ==>
          Key(c, commits[i]) in objects && objects[Key(c, commits[i])] == EncodeAll(c.codec, commits[i].batch))
    && (forall i :: 0 <= i < |strays| ==> Key(c, strays[i]) in objects)
    && (forall k :: k in objects ==>
          || (exists i :: 0 <= i < |commits| && k == Key(c, commits[i]))
          || (exists i ::
                0 <= i < |strays| && k == Key(c, strays[i]) && objects[k] == EncodeAll(c.codec, strays[i].batch)))
  }

  ghost predicate Valid(c: Config, w: Writer) {
    && w.buffer == EncodeAll(c.codec, w.pending)
    && |w.commits| == w.sequence
    && Accounted(w.accepted, w.commits, w.pending)
    && StraysRepeat(w.commits, w.pending, w.strays)
    && BackendHolds(c, w.objects, w.commits, w.strays)
  }

  /** Keys with different numbers differ, whatever the dates. */
  ghost predicate NumbersSeparate(c: Config) {
    forall t, m, u, n :: c.objectName(t, m) == c.objectName(u, n) ==> m == n
  }

  /** `newCloudObjectName`. */
  function CloudObjectName(at: Location): (nat, nat) -> string {
    (t: nat, sequence: nat) => ObjectKey(at, t, sequence)
  }

  lemma CloudNamesSeparate(c: Config, at: Location)
    requires at.captureID != "" && c.objectName == CloudObjectName(at)
    ensures NumbersSeparate(c)
  {
    forall t, m, u, n | c.objectName(t, m) == c.objectName(u, n) ensures m == n {
      KeyShape(at, t, m);
      KeyShape(at, u, n);
      var base, pod := BuildObjectPrefix(at.prefix, at.captureID), PodName(at.agentPod);
      CutKey(KeyStem(at, t), Padded(m), KeyStem(at, u), Padded(n),
             base + (Format(DateOf(t)) + ("/" + pod)), base + (Format(DateOf(u)) + ("/" + pod)));
      PaddedInjective(m, n);
    }
  }

  /** `newFilesystemObjectName`; `directory` is the joined and cleaned path of the mount and the capture. */
  function FilesystemObjectName(directory: string, agentPod: string): (nat, nat) -> string {
    (t: nat, sequence: nat) => FileIn(directory, Format(DateOf(t)), ObjectFileName(agentPod, sequence))
  }

  function FileIn(directory: string, date: string, file: string): string {
    directory + "/" + date + "/" + file
  }

  lemma FileParts(directory: string, date: string, pod: string, number: string)
    ensures FileIn(directory, date, pod + "-" + number + ".jsonl.gz")
         == (FileIn(directory, date, pod) + "-") + (number + ".jsonl.gz")
  {
  }

  lemma FileName(directory: string, agentPod: string, t: nat, n: nat)
    ensures FilesystemObjectName(directory, agentPod)(t, n)
         == (FileIn(directory, Format(DateOf(t)), PodName(agentPod)) + "-") + (Padded(n) + ".jsonl.gz")
  {
    FileParts(directory, Format(DateOf(t)), PodName(agentPod), Padded(n));
  }

  lemma FilesystemNamesSeparate(c: Config, directory: string, agentPod: string)
    requires c.objectName == FilesystemObjectName(directory, agentPod)
    ensures NumbersSeparate(c)
  {
    forall t, m, u, n | c.objectName(t, m) == c.objectName(u, n) ensures m == n {
      FileName(directory, agentPod, t, m);
      FileName(directory, agentPod, u, n);
      var a := FileIn(directory, Format(DateOf(t)), PodName(agentPod));
      var b := FileIn(directory, Format(DateOf(u)), PodName(agentPod));
      CutKey(a + "-", Padded(m), b + "-", Padded(n), a, b);
      PaddedInjective(m, n);
    }
  }

  lemma PaddedInjective(m: nat, n: nat)
    requires Padded(m) == Padded(n)
    ensures m == n
  {
    Pow10Grows(Width(m), |Padded(m)|);
    Pow10Grows(Width(n), |Padded(n)|);
    ValueFixed(m, |Padded(m)|);
    ValueFixed(n, |Padded(n)|);
  }

  lemma CutKey(s: string, m: string, t: string, n: string, a: string, b: string)
    requires AllDigits(m) && AllDigits(n)
    requires s == a + "-" && t == b + "-"
    requires s + (m + ".jsonl.gz") == t + (n + ".jsonl.gz")
    ensures m == n
  {
    var x, y := s + (m + ".jsonl.gz"), t + (n + ".jsonl.gz");
    assert |s + m| == |t + n|;
    assert x[..|s + m|] == s + m && y[..|t + n|] == t + n;
    assert a + "-" + m == s + m && b + "-" + n == t + n;
    SplitAtLastDash(a, m, b, n);
  }

  lemma PutCommit(c: Config, objects: map<string, string>, commits: seq<Object>, strays: seq<Object>, o: Object)
    requires BackendHolds(c, objects, commits, strays)
    requires forall i :: 0 <= i < |commits| ==> Key(c, commits[i]) != Key(c, o)
    ensures BackendHolds(c, objects[Key(c, o) := EncodeAll(c.codec, o.batch)], commits + [o], strays)
  {
    var cs := commits + [o];
    forall k | k in objects && k != Key(c, o)
      ensures (exists i :: 0 <= i < |cs| && k == Key(c, cs[i]))
           || (exists i ::
                 0 <= i < |strays| && k == Key(c, strays[i]) && objects[k] == EncodeAll(c.codec, strays[i].batch))
    {
      if i :| 0 <= i < |commits| && k == Key(c, commits[i]) { assert k == Key(c, cs[i]); }
    }
    assert cs[|commits|] == o;
  }

  lemma PutStray(c: Config, objects: map<string, string>, commits: seq<Object>, strays: seq<Object>, o: Object)
    requires BackendHolds(c, objects, commits, strays)
    requires forall i :: 0 <= i < |commits| ==> Key(c, commits[i]) != Key(c, o)
    ensures BackendHolds(c, objects[Key(c, o) := EncodeAll(c.codec, o.batch)], commits, strays + [o])
  {
    var ss := strays + [o];
    var os := objects[Key(c, o) := EncodeAll(c.codec, o.batch)];
    forall k | k in os
      ensures (exists i :: 0 <= i < |commits| && k == Key(c, commits[i]))
           || (exists i :: 0 <= i < |ss| && k == Key(c, ss[i]) && os[k] == EncodeAll(c.codec, ss[i].batch))
    {
      if k == Key(c, o) {
        assert ss[|strays|] == o;
      } else if i :| 0 <= i < |strays| && k == Key(c, strays[i]) && objects[k] == EncodeAll(c.codec, strays[i].batch) {
        assert k == Key(c, ss[i]);
      }
    }
  }

  lemma CommitKeepsHistory(accepted: seq<CapturedRequest>, commits: seq<Object>, pending: seq<CapturedRequest>,
                           strays: seq<Object>, o: Object)
    requires Accounted(accepted, commits, pending) && StraysRepeat(commits, pending, strays)
    requires o.sequence == |commits| + 1 && o.batch == pending != []
    ensures Accounted(accepted, commits + [o], []) && StraysRepeat(commits + [o], [], strays)
  {
    assert (commits + [o])[..|commits|] == commits;
  }

  lemma FlushKeepsValid(c: Config, w: Writer, env: Env)
    requires Valid(c, w) && NumbersSeparate(c)
    ensures Valid(c, AfterFlushLocked(c, w, env).0)
  {
    var o := Object(env.name, w.sequence + 1, w.pending);
    UploadKeepsValid(c, w, env, o);
  }

  lemma UploadKeepsValid(c: Config, w: Writer, env: Env, o: Object)
    requires Valid(c, w) && o == Object(env.name, w.sequence + 1, w.pending)
    requires forall i :: 0 <= i < |w.commits| ==> Key(c, w.commits[i]) != Key(c, o)
    ensures Valid(c, AfterFlushLocked(c, w, env).0)
  {
    if w.buffer != "" {
      match env.upload
      case Stored =>
        PutCommit(c, w.objects, w.commits, w.strays, o);
        CommitKeepsHistory(w.accepted, w.commits, w.pending, w.strays, o);
      case StoredThenFailed =>
        PutStray(c, w.objects, w.commits, w.strays, o);
        StrayKeepsRepeat(w.commits, w.pending, w.strays, o);
      case Rejected =>
    }
  }

  lemma StrayKeepsRepeat(commits: seq<Object>, pending: seq<CapturedRequest>, strays: seq<Object>, o: Object)
    requires StraysRepeat(commits, pending, strays)
    requires o.sequence == |commits| + 1 && o.batch == pending != []
    ensures StraysRepeat(commits, pending, strays + [o])
  {
  }

  lemma AppendKeepsValid(c: Config, w: Writer, r: CapturedRequest)
    requires Valid(c, w)
    ensures Valid(c, Appended(c, w, r))
  {
    EncodeAllSnoc(c.codec, w.pending, r);
    AppendKeepsHistory(w.accepted, w.commits, w.pending, w.strays, r);
  }

  lemma AppendKeepsHistory(accepted: seq<CapturedRequest>, commits: seq<Object>, pending: seq<CapturedRequest>,
                           strays: seq<Object>, r: CapturedRequest)
    requires Accounted(accepted, commits, pending) && StraysRepeat(commits, pending, strays)
    ensures Accounted(accepted + [r], commits, pending + [r]) && StraysRepeat(commits, pending + [r], strays)
  {
  }

  lemma WriteKeepsValid(c: Config, w: Writer, req: Option<CapturedRequest>, env: Env)
    requires Valid(c, w) && NumbersSeparate(c)
    ensures Valid(c, AfterWrite(c, w, req, env).0)
  {
    if req.Some? && !w.closed {
      AppendKeepsValid(c, w, req.value);
      FlushKeepsValid(c, Appended(c, w, req.value), env);
    }
  }

  /** Uploaded texts in sequence order, then the buffer, are all the accepted lines. */
  lemma {:induction false} PayloadsOfBatches(codec: Codec, os: seq<Object>)
    ensures Payloads(codec, os) == EncodeAll(codec, Batches(os))
  {
    if os == [] {
    } else {
      PayloadsOfBatches(codec, os[..|os| - 1]);
      EncodeAllAppend(codec, Batches(os[..|os| - 1]), os[|os| - 1].batch);
    }
  }

  lemma NothingLost(c: Config, w: Writer)
    requires Valid(c, w)
    ensures Payloads(c.codec, w.commits) + w.buffer == EncodeAll(c.codec, w.accepted)
  {
    PayloadsOfBatches(c.codec, w.commits);
    EncodeAllAppend(c.codec, Batches(w.commits), w.pending);
  }

  // ---------------------------------------------------------------------
  // Whole lifetimes
  // ---------------------------------------------------------------------

  datatype Call = WriteCall(req: Option<CapturedRequest>, env: Env) | FlushCall(env: Env) | CloseCall(env: Env)

  function Perform(c: Config, w: Writer, call: Call): (Writer, Result) {
    match call
    case WriteCall(req, env) => AfterWrite(c, w, req, env)
    case FlushCall(env) => AfterFlush(c, w, env)
    case CloseCall(env) => AfterClose(c, w, env)
  }

  /** One writer from creation through any sequence of calls. */
  function Lifetime(c: Config, start: nat, calls: seq<Call>): Writer {
    if calls == [] then Fresh(start)
    else Perform(c, Lifetime(c, start, calls[..|calls| - 1]), calls[|calls| - 1]).0
  }

  lemma PerformKeepsValid(c: Config, w: Writer, call: Call)
    requires Valid(c, w) && NumbersSeparate(c)
    ensures Valid(c, Perform(c, w, call).0)
  {
    match call
    case WriteCall(req, env) => WriteKeepsValid(c, w, req, env);
    case FlushCall(env) => FlushKeepsValid(c, w, env);
    case CloseCall(env) => FlushKeepsValid(c, w, env);
  }

  /** A writer is closed only over an empty buffer. */
  lemma PerformClosesEmpty(c: Config, w: Writer, call: Call)
    requires w.buffer == EncodeAll(c.codec, w.pending) && (w.closed ==> w.pending == [])
    ensures var v := Perform(c, w, call).0; v.closed ==> v.pending == []
  {
  }

  lemma {:induction false} LifetimeValid(c: Config, start: nat, calls: seq<Call>)
    requires NumbersSeparate(c)
    ensures Valid(c, Lifetime(c, start, calls))
    ensures Lifetime(c, start, calls).closed ==> Lifetime(c, start, calls).pending == []
  {
    if calls == [] {
    } else {
      LifetimeValid(c, start, calls[..|calls| - 1]);
      PerformKeepsValid(c, Lifetime(c, start, calls[..|calls| - 1]), calls[|calls| - 1]);
      PerformClosesEmpty(c, Lifetime(c, start, calls[..|calls| - 1]), calls[|calls| - 1]);
    }
  }

  // --- when it uploads ---------------------------------------------------

  /** With its line the buffer is full, or the last flush is too long ago. */
  predicate Due(c: Config, w: Writer, r: CapturedRequest, env: Env) {
    |w.buffer| + |c.codec.encode(r)| + 1 >= c.maxBufferBytes || env.check >= w.lastFlush + c.flushInterval
  }

  /** An open writer uploads in a Write if and only if that is due: then everything buffered, the new request
      included, makes one object, or stays buffered if the upload fails. */
  lemma WriteUploadsIff(c: Config, w: Writer, r: CapturedRequest, env: Env)
    requires !w.closed
    ensures var (v, result) := AfterWrite(c, w, Some(r), env);
            if !Due(c, w, r, env) then
              result.Ok? && v == w.(buffer := v.buffer, accepted := v.accepted, pending := w.pending + [r])
            else if env.upload.Stored? then
              && result.Ok? && v.buffer == "" && v.pending == [] && v.lastFlush == env.done
              && v.commits == w.commits + [Object(env.name, w.sequence + 1, w.pending + [r])]
            else
              && result.UploadFailed? && v.pending == w.pending + [r]
              && v.commits == w.commits && v.lastFlush == w.lastFlush
  {
  }

  /** As long as uploads succeed, the buffer stays below its limit, whatever the calls. */
  lemma {:induction false} BufferStaysSmall(c: Config, start: nat, calls: seq<Call>)
    requires c.maxBufferBytes > 0 && forall i :: 0 <= i < |calls| ==> calls[i].env.upload.Stored?
    ensures |Lifetime(c, start, calls).buffer| < c.maxBufferBytes
  {
    if calls == [] {
    } else {
      BufferStaysSmall(c, start, calls[..|calls| - 1]);
    }
  }

  /** A flush restarts the clock, also when there is nothing to upload, but not when the upload fails. */
  lemma FlushRestartsClock(c: Config, w: Writer, env: Env)
    requires !w.closed
    ensures var (v, result) := AfterFlush(c, w, env);
            && (result.Ok? <==> w.buffer == "" || env.upload.Stored?)
            && v.lastFlush == (if result.Ok? then env.done else w.lastFlush)
            && (w.buffer == "" ==> v == w.(lastFlush := env.done))
  {
  }

  /** A closed writer takes nothing more and never changes; closing it again is no error. */
  lemma ClosedIsFinal(c: Config, w: Writer, call: Call)
    requires w.closed
    ensures Perform(c, w, call).0 == w
    ensures match call
            case WriteCall(req, env) => Perform(c, w, call).1 == if req.None? then NilRequest else WriterClosed
            case FlushCall(env) => Perform(c, w, call).1 == WriterClosed
            case CloseCall(env) => Perform(c, w, call).1 == Ok
  {
  }

  /** The accepted requests are those of the write calls made while the writer was open. */
  function Accepted(c: Config, start: nat, calls: seq<Call>): seq<CapturedRequest> {
    if calls == [] then []
    else
      var before := Accepted(c, start, calls[..|calls| - 1]);
      var last := calls[|calls| - 1];
      if last.WriteCall? && last.req.Some? && !Lifetime(c, start, calls[..|calls| - 1]).closed
      then before + [last.req.value]
      else before
  }

  lemma {:induction false} LifetimeAccepts(c: Config, start: nat, calls: seq<Call>)
    ensures Lifetime(c, start, calls).accepted == Accepted(c, start, calls)
  {
    if calls == [] {
    } else {
      LifetimeAccepts(c, start, calls[..|calls| - 1]);
    }
  }

  /** The clock's date never goes back from one call to the next. */
  ghost predicate DatesAdvance(calls: seq<Call>) {
    forall i, j :: 0 <= i < j < |calls| ==> calls[i].env.name / DAY <= calls[j].env.name / DAY
  }

  ghost predicate NamedDuring(os: seq<Object>, calls: seq<Call>) {
    forall i :: 0 <= i < |os| ==> exists j :: 0 <= j < |calls| && os[i].t == calls[j].env.name
  }

  ghost predicate Chronological(os: seq<Object>) {
    forall i, j :: 0 <= i < j < |os| ==> os[i].t / DAY <= os[j].t / DAY
  }

  lemma {:induction false} CommitDates(c: Config, start: nat, calls: seq<Call>)
    requires DatesAdvance(calls)
    ensures Chronological(Lifetime(c, start, calls).commits)
    ensures NamedDuring(Lifetime(c, start, calls).commits, calls)
  {
    if calls == [] {
    } else {
      var prior, last := calls[..|calls| - 1], calls[|calls| - 1];
      CommitDates(c, start, prior);
      ExtendDates(Lifetime(c, start, prior).commits, Lifetime(c, start, calls).commits, calls);
    }
  }

  lemma ExtendDates(os: seq<Object>, ps: seq<Object>, calls: seq<Call>)
    requires calls != [] && DatesAdvance(calls)
    requires Chronological(os) && NamedDuring(os, calls[..|calls| - 1])
    requires ps == os || (|ps| == |os| + 1 && ps[..|os|] == os && ps[|os|].t == calls[|calls| - 1].env.name)
    ensures Chronological(ps) && NamedDuring(ps, calls)
  {
    var prior, last := calls[..|calls| - 1], calls[|calls| - 1];
    forall i | 0 <= i < |os|
      ensures os[i].t / DAY <= last.env.name / DAY
      ensures exists j :: 0 <= j < |calls| && os[i].t == calls[j].env.name
    {
      var j :| 0 <= j < |prior| && os[i].t == prior[j].env.name;
      assert calls[j] == prior[j];
    }
    assert forall i :: 0 <= i < |os| ==> ps[i] == os[i];
  }

  // ---------------------------------------------------------------------
  // The writer as an object
  // ---------------------------------------------------------------------

  /** `bufferedObjectWriter`; every method leaves the state its After function describes. */
  class BufferedObjectWriter {
    const config: Config
    var sequence: nat
    var buffer: string
    var closed: bool
    var lastFlush: nat
    var objects: map<string, string>
    ghost var accepted: seq<CapturedRequest>
    ghost var pending: seq<CapturedRequest>
    ghost var commits: seq<Object>
    ghost var strays: seq<Object>

    ghost function State(): Writer
      reads this
    {
      Writer(sequence, buffer, closed, lastFlush, objects, accepted, pending, commits, strays)
    }

    constructor (c: Config, now: nat)
      ensures config == c && State() == Fresh(now) && Valid(config, State())
    {
      config := c;
      sequence, buffer, closed, lastFlush, objects := 0, "", false, now, map[];
      accepted, pending, commits, strays := [], [], [], [];
    }

    method Write(req: Option<CapturedRequest>, env: Env) returns (r: Result)
      requires Valid(config, State()) && NumbersSeparate(config)
      modifies this
      ensures (State(), r) == AfterWrite(config, old(State()), req, env)
      ensures Valid(config, State())
    {
      WriteKeepsValid(config, State(), req, env);
      r := WriteLine(req, env);
    }

    method WriteLine(req: Option<CapturedRequest>, env: Env) returns (r: Result)
      modifies this
      ensures (State(), r) == AfterWrite(config, old(State()), req, env)
    {
      if req.None? { return NilRequest; }
      if closed { return WriterClosed; }
      buffer := buffer + (config.codec.encode(req.value) + "\n");
      accepted, pending := accepted + [req.value], pending + [req.value];
      if |buffer| >= config.maxBufferBytes || env.check - lastFlush >= config.flushInterval {
        r := FlushLocked(env);
      } else {
        r := Ok;
      }
    }

    method Flush(env: Env) returns (r: Result)
      requires Valid(config, State()) && NumbersSeparate(config)
      modifies this
      ensures (State(), r) == AfterFlush(config, old(State()), env)
      ensures Valid(config, State())
    {
      FlushKeepsValid(config, State(), env);
      if closed { return WriterClosed; }
      r := FlushLocked(env);
    }

    method Close(env: Env) returns (r: Result)
      requires Valid(config, State()) && NumbersSeparate(config)
      modifies this
      ensures (State(), r) == AfterClose(config, old(State()), env)
      ensures Valid(config, State())
    {
      PerformKeepsValid(config, State(), CloseCall(env));
      r := FlushAndClose(env);
    }

    method FlushAndClose(env: Env) returns (r: Result)
      modifies this
      ensures (State(), r) == AfterClose(config, old(State()), env)
    {
      if closed { return Ok; }
      r := FlushLocked(env);
      if r.Ok? { closed := true; }
    }

    method FlushLocked(env: Env) returns (r: Result)
      modifies this
      ensures (State(), r) == AfterFlushLocked(config, old(State()), env)
    {
      if |buffer| == 0 {
        lastFlush := env.done;
        return Ok;
      }
      var name := config.objectName(env.name, sequence + 1);
      ghost var o := Object(env.name, sequence + 1, pending);
      match env.upload
      case Rejected =>
        return UploadFailed;
      case StoredThenFailed =>
        objects := objects[name := buffer];
        strays := strays + [o];
        return UploadFailed;
      case Stored =>
        objects := objects[name := buffer];
        commits := commits + [o];
        buffer, pending := "", [];
        sequence := sequence + 1;
        lastFlush := env.done;
        return Ok;
    }
  }
}
