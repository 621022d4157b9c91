/**
 Filtering and pacing: the builtin engine's read loop and the feeder of external engines
 are two implementations of one behaviour, and in original-timing mode that behaviour
 reproduces the recorded timeline of the shard's own requests.
 */
module Pacing {
  import opened Options
  import opened Calendar
  import opened Capture
  import opened Sharding

  datatype RateMode = Constant | OriginalTiming | Unlimited

  /** How the reader ended. */
  datatype End = ReaderDone | Eof | ReadFailed

  /** What the loop waits for before it hands a request on; a sleep lasts the recorded gap times the scale. */
  datatype Wait = NoWait | Tick | Sleep(gap: nat, scale: real)

  /** Returns None when the transformer drops the request or fails on it. */
  type Transformer = CapturedRequest -> Option<CapturedRequest>

  /** `ticking`: a positive constant rate was configured. `owns`: the shard filter, `Owned(index, count)`. */
  datatype Config = Config(mode: RateMode, ticking: bool, scale: real, owns: CapturedRequest -> bool)

  // ---------------------------------------------------------------------
  // What the loops compute
  // ---------------------------------------------------------------------

  /** The wait between two consecutive requests of a shard; a zero timestamp is unknown. */
  function WaitBetween(c: Config, prev: nat, t: nat): Wait {
    match c.mode
    case Constant => if c.ticking then Tick else NoWait
    case OriginalTiming => if prev != 0 && t > prev then Sleep(t - prev, c.scale) else NoWait
    case Unlimited => NoWait
  }

  function Transformed(ts: seq<Transformer>, r: CapturedRequest): Option<CapturedRequest> {
    if ts == [] then Some(r)
    else match ts[0](r)
         case None => None
         case Some(s) => Transformed(ts[1..], s)
  }

  /** The requests that pass the shard filter and the transformers, as they were captured. */
  function Passing(ts: seq<Transformer>, c: Config): CapturedRequest -> bool {
    (r: CapturedRequest) => c.owns(r) && Transformed(ts, r).Some?
  }

  function LastTime(kept: seq<CapturedRequest>): nat {
    if kept == [] then 0 else kept[|kept| - 1].timestamp
  }

  /** Each request that passes waits for its own predecessor among those that pass. */
  function Waits(c: Config, kept: seq<CapturedRequest>): seq<Wait> {
    if kept == [] then []
    else
      var front := kept[..|kept| - 1];
      Waits(c, front) + [WaitBetween(c, LastTime(front), kept[|kept| - 1].timestamp)]
  }

  function WaitAt(c: Config, kept: seq<CapturedRequest>, i: nat): Wait
    requires i < |kept|
  {
    WaitBetween(c, if i == 0 then 0 else kept[i - 1].timestamp, kept[i].timestamp)
  }

  lemma {:induction false} WaitsAt(c: Config, kept: seq<CapturedRequest>)
    ensures |Waits(c, kept)| == |kept|
    ensures forall i :: 0 <= i < |kept| ==> Waits(c, kept)[i] == WaitAt(c, kept, i)
  {
    if kept == [] {
    } else {
      var front := kept[..|kept| - 1];
      WaitsAt(c, front);
      assert forall i :: 0 <= i < |front| ==> WaitAt(c, front, i) == WaitAt(c, kept, i);
    }
  }

  // ---------------------------------------------------------------------
  // The builtin engine
  // ---------------------------------------------------------------------

  /** What has been emitted for the requests `kept`: their transformed forms, and their waits. */
  ghost predicate EmittedFor(c: Config, ts: seq<Transformer>, kept: seq<CapturedRequest>, out: seq<CapturedRequest>,
                             waits: seq<Wait>)
  {
    && waits == Waits(c, kept)
    && |out| == |kept| && forall i :: 0 <= i < |kept| ==> Transformed(ts, kept[i]) == Some(out[i])
  }

  /** Where the read loop stands after the requests in `seen`. */
  ghost predicate Progress(c: Config, ts: seq<Transformer>, seen: seq<CapturedRequest>, out: seq<CapturedRequest>,
                           waits: seq<Wait>,
                           skipped: nat, filtered: nat)
  {
    && EmittedFor(c, ts, Filter(seen, Passing(ts, c)), out, waits)
    && skipped + |Filter(seen, c.owns)| == |seen|
    && skipped + filtered + |out| == |seen|
  }

  /** One more request: skipped, dropped by a transformer, or emitted. */
  lemma OneMore(c: Config, ts: seq<Transformer>, seen: seq<CapturedRequest>, r: CapturedRequest,
                out: seq<CapturedRequest>,
                waits: seq<Wait>, skipped: nat, filtered: nat)
    requires Progress(c, ts, seen, out, waits, skipped, filtered)
    ensures var last := LastTime(Filter(seen, Passing(ts, c)));
            if !c.owns(r) then Progress(c, ts, seen + [r], out, waits, skipped + 1, filtered)
            else match Transformed(ts, r)
                 case None => Progress(c, ts, seen + [r], out, waits, skipped, filtered + 1)
                 case Some(s) => Progress(c, ts, seen + [r], out + [s], waits + [WaitBetween(c, last, r.timestamp)],
                     skipped, filtered)
    ensures LastTime(Filter(seen + [r], Passing(ts, c)))
         == if Passing(ts, c)(r) then r.timestamp else LastTime(Filter(seen, Passing(ts, c)))
  {
    FilterSnoc(seen, r, Passing(ts, c));
    FilterSnoc(seen, r, c.owns);
  }

  /** `Engine.readLoop` on a run that is not cancelled; only ReaderDone counts as a normal end. */
  method ReadLoop(c: Config, ts: seq<Transformer>, input: seq<CapturedRequest>, end: End)
    returns (out: seq<CapturedRequest>, waits: seq<Wait>, skipped: nat, filtered: nat, ok: bool)
    ensures Progress(c, ts, input, out, waits, skipped, filtered)
    ensures ok == end.ReaderDone?
  {
    var prev: nat := 0;
    out, waits, skipped, filtered := [], [], 0, 0;
    for i := 0 to |input|
      invariant Progress(c, ts, input[..i], out, waits, skipped, filtered)
      invariant PrevIs(c, Filter(input[..i], Passing(ts, c)), prev)
    {
      assert input[..i + 1] == input[..i] + [input[i]];
      prev, out, waits, skipped, filtered := ReadNext(c, ts, input[..i], input[i], prev, out, waits, skipped, filtered);
    }
    assert input[..|input|] == input;
    ok := end.ReaderDone?;
  }

  ghost predicate PrevIs(c: Config, kept: seq<CapturedRequest>, prev: nat) {
    c.mode.OriginalTiming? ==> prev == LastTime(kept)
  }

  /** The loop body. */
  method ReadNext(c: Config, ts: seq<Transformer>, ghost seen: seq<CapturedRequest>, r: CapturedRequest, prev: nat,
                  out: seq<CapturedRequest>, waits: seq<Wait>, skipped: nat, filtered: nat)
    returns (prev': nat, out': seq<CapturedRequest>, waits': seq<Wait>, skipped': nat, filtered': nat)
    requires Progress(c, ts, seen, out, waits, skipped, filtered) && PrevIs(c, Filter(seen, Passing(ts, c)), prev)
    ensures Progress(c, ts, seen + [r], out', waits', skipped', filtered')
          && PrevIs(c, Filter(seen + [r], Passing(ts, c)), prev')
  {
    OneMore(c, ts, seen, r, out, waits, skipped, filtered);
    prev', out', waits', skipped', filtered' := prev, out, waits, skipped, filtered;
    if !c.owns(r) {
      skipped' := skipped + 1;
    } else {
      var current := Apply(ts, r);
      if current.None? {
        filtered' := filtered + 1;
      } else {
        var wait;
        wait, prev' := EngineWait(c, prev, r.timestamp);
        out', waits' := out + [current.value], waits + [wait];
      }
    }
  }

  /** The engine's pacing switch. */
  method EngineWait(c: Config, prev: nat, t: nat) returns (wait: Wait, prev': nat)
    ensures prev' == if c.mode.OriginalTiming? then t else prev
    ensures wait == WaitBetween(c, prev, t)
  {
    wait, prev' := NoWait, prev;
    match c.mode
    case Constant => if c.ticking { wait := Tick; }
    case OriginalTiming =>
      if prev != 0 && t != 0 {
        var delay := t - prev;
        if delay > 0 { wait := Sleep(delay, c.scale); }
      }
      prev' := t;
    case Unlimited =>
  }

  method Apply(ts: seq<Transformer>, r: CapturedRequest) returns (current: Option<CapturedRequest>)
    ensures current == Transformed(ts, r)
  {
    current := Some(r);
    for i := 0 to |ts|
      invariant current.Some? && Transformed(ts[i..], current.value) == Transformed(ts, r)
    {
      assert ts[i..][0] == ts[i] && ts[i..][1..] == ts[i + 1..];
      current := ts[i](current.value);
      if current.None? { return; }
    }
  }

  // ---------------------------------------------------------------------
  // The feeder
  // ---------------------------------------------------------------------

  /** The first known timestamp. */
  function BaseTime(kept: seq<CapturedRequest>): nat {
    if kept == [] then 0
    else
      var before := BaseTime(kept[..|kept| - 1]);
      if before != 0 then before else kept[|kept| - 1].timestamp
  }

  /** Time since the first known timestamp, as sent along with each request. */
  function Offsets(kept: seq<CapturedRequest>): seq<int> {
    if kept == [] then []
    else
      var t := kept[|kept| - 1].timestamp;
      Offsets(kept[..|kept| - 1]) + [if t == 0 then 0 else t - BaseTime(kept)]
  }

  /** Host-side pacing is off for engines that pace themselves. */
  function FeedConfig(c: Config, pace: bool): Config {
    if pace then c else c.(mode := Unlimited)
  }

  ghost predicate Fed(c: Config, pace: bool, seen: seq<CapturedRequest>, sent: seq<CapturedRequest>, waits: seq<Wait>,
                      offsets: seq<int>, skipped: nat)
  {
    && sent == Filter(seen, c.owns)
    && waits == Waits(FeedConfig(c, pace), sent)
    && offsets == Offsets(sent)
    && skipped + |sent| == |seen|
  }

  lemma FeedOne(c: Config, pace: bool, seen: seq<CapturedRequest>, r: CapturedRequest, sent: seq<CapturedRequest>,
                waits: seq<Wait>,
                offsets: seq<int>, skipped: nat, base: nat, wait: Wait, offset: int)
    requires Fed(c, pace, seen, sent, waits, offsets, skipped) && c.owns(r)
    requires base == if BaseTime(sent) != 0 then BaseTime(sent) else r.timestamp
    requires wait == WaitBetween(FeedConfig(c, pace), LastTime(sent), r.timestamp)
    requires offset == if r.timestamp == 0 then 0 else r.timestamp - base
    ensures Fed(c, pace, seen + [r], sent + [r], waits + [wait], offsets + [offset], skipped)
    ensures BaseTime(sent + [r]) == base && LastTime(sent + [r]) == r.timestamp
  {
    FilterSnoc(seen, r, c.owns);
    assert (sent + [r])[..|sent|] == sent;
  }

  /** `Feeder.feed` on a run that is not cancelled, with every send succeeding; io.EOF is a normal end too. */
  method Feed(c: Config, pace: bool, input: seq<CapturedRequest>, end: End)
    returns (sent: seq<CapturedRequest>, waits: seq<Wait>, offsets: seq<int>, skipped: nat, ok: bool)
    ensures Fed(c, pace, input, sent, waits, offsets, skipped)
    ensures ok == !end.ReadFailed?
  {
    var base: nat, prev: nat := 0, 0;
    sent, waits, offsets, skipped := [], [], [], 0;
    for i := 0 to |input|
      invariant Fed(c, pace, input[..i], sent, waits, offsets, skipped)
      invariant base == BaseTime(sent) && PrevIs(FeedConfig(c, pace), sent, prev)
    {
      assert input[..i + 1] == input[..i] + [input[i]];
      if !c.owns(input[i]) {
        skipped := skipped + 1;
      } else {
        base, prev, sent, waits, offsets := FeedNext(c, pace, input[..i], input[i], base, prev, sent, waits, offsets,
          skipped);
      }
    }
    assert input[..|input|] == input;
    ok := !end.ReadFailed?;
  }

  /** The loop body on a request of the shard. */
  method FeedNext(c: Config, pace: bool, ghost seen: seq<CapturedRequest>, r: CapturedRequest, base: nat, prev: nat,
                  sent: seq<CapturedRequest>, waits: seq<Wait>, offsets: seq<int>, ghost skipped: nat)
    returns (base': nat, prev': nat, sent': seq<CapturedRequest>, waits': seq<Wait>, offsets': seq<int>)
    requires c.owns(r) && Fed(c, pace, seen, sent, waits, offsets, skipped)
    requires base == BaseTime(sent) && PrevIs(FeedConfig(c, pace), sent, prev)
    ensures Fed(c, pace, seen + [r], sent', waits', offsets', skipped)
    ensures base' == BaseTime(sent') && PrevIs(FeedConfig(c, pace), sent', prev')
  {
    base' := if base == 0 && r.timestamp != 0 then r.timestamp else base;
    var wait;
    wait, prev' := FeederWait(c, pace, prev, r.timestamp);
    var offset := if r.timestamp != 0 && base' != 0 then r.timestamp - base' else 0;
    FeedOne(c, pace, seen, r, sent, waits, offsets, skipped, base', wait, offset);
    sent', waits', offsets' := sent + [r], waits + [wait], offsets + [offset];
  }

  /** The feeder's pacing switch. */
  method FeederWait(c: Config, pace: bool, prev: nat, t: nat) returns (wait: Wait, prev': nat)
    ensures prev' == if pace && c.mode.OriginalTiming? then t else prev
    ensures wait == WaitBetween(FeedConfig(c, pace), prev, t)
  {
    wait, prev' := NoWait, prev;
    if pace {
      match c.mode
      case Constant => if c.ticking { wait := Tick; }
      case OriginalTiming =>
        if prev != 0 && t != 0 {
          var delay := t - prev;
          if delay > 0 { wait := Sleep(delay, c.scale); }
        }
        prev' := t;
      case Unlimited =>
    }
  }

  lemma {:induction false} SameFilter(input: seq<CapturedRequest>, c: Config)
    ensures Filter(input, Passing([], c)) == Filter(input, c.owns)
  {
    if input == [] {
    } else {
      SameFilter(input[..|input| - 1], c);
      assert Transformed([], input[|input| - 1]).Some?;
    }
  }

  /** Without transformers, what the engine emits is what the paced feeder sends, wait for wait. */
  lemma PacersAgree(c: Config, input: seq<CapturedRequest>, out: seq<CapturedRequest>, waits: seq<Wait>, skipped: nat,
                    filtered: nat,
                    sent: seq<CapturedRequest>, feedWaits: seq<Wait>, offsets: seq<int>, feedSkipped: nat)
    requires Progress(c, [], input, out, waits, skipped, filtered)
    requires Fed(c, true, input, sent, feedWaits, offsets, feedSkipped)
    ensures out == sent && waits == feedWaits && skipped == feedSkipped && filtered == 0
  {
    SameFilter(input, c);
    assert forall i :: 0 <= i < |out| ==> Transformed([], sent[i]) == Some(sent[i]);
    assert forall i :: 0 <= i < |out| ==> out[i] == sent[i];
  }

  /**
   Both implementations side by side. They differ only on a reader that ends with io.EOF, which
   the feeder takes for the end and the builtin engine reports as an error.
   */
  method BothPacers(c: Config, input: seq<CapturedRequest>, end: End) returns (agree: bool)
    ensures agree <==> !end.Eof?
  {
    var out, waits, skipped, filtered, ok := ReadLoop(c, [], input, end);
    var sent, feedWaits, offsets, feedSkipped, feedOk := Feed(c, true, input, end);
    PacersAgree(c, input, out, waits, skipped, filtered, sent, feedWaits, offsets, feedSkipped);
    agree := out == sent && waits == feedWaits && skipped == feedSkipped && ok == feedOk;
  }

  // ---------------------------------------------------------------------
  // The other modes
  // ---------------------------------------------------------------------

  function Ticks(waits: seq<Wait>): nat {
    if waits == [] then 0 else Ticks(waits[..|waits| - 1]) + if waits[|waits| - 1].Tick? then 1 else 0
  }

  /** At a constant rate every request takes one tick of the clock: the k-th is handed on with tick k + 1, and
      nothing sleeps. */
  lemma {:induction false} OneTickEach(c: Config, kept: seq<CapturedRequest>)
    requires c.mode.Constant? && c.ticking
    ensures |Waits(c, kept)| == |kept| == Ticks(Waits(c, kept)) && TotalGap(Waits(c, kept)) == 0
    ensures forall k :: 0 <= k < |kept| ==> Waits(c, kept)[k] == Tick
  {
    if kept == [] {
    } else {
      OneTickEach(c, kept[..|kept| - 1]);
    }
  }

  /** Without a rate, and without a limit, nothing is waited for. */
  lemma {:induction false} NoWaiting(c: Config, kept: seq<CapturedRequest>)
    requires c.mode.Unlimited? || (c.mode.Constant? && !c.ticking)
    ensures |Waits(c, kept)| == |kept| && forall k :: 0 <= k < |kept| ==> Waits(c, kept)[k] == NoWait
  {
    if kept == [] {
    } else {
      NoWaiting(c, kept[..|kept| - 1]);
    }
  }

  /** A feeder that leaves pacing to its engine waits for nothing, whatever the mode. */
  lemma UnpacedFeeder(c: Config, seen: seq<CapturedRequest>, sent: seq<CapturedRequest>, waits: seq<Wait>,
                      offsets: seq<int>, skipped: nat)
    requires Fed(c, false, seen, sent, waits, offsets, skipped)
    ensures |waits| == |sent| && forall k :: 0 <= k < |waits| ==> waits[k] == NoWait
  {
    NoWaiting(FeedConfig(c, false), sent);
  }

  /** The k-th offset counts from the first request with a known time; an unknown time has none. */
  lemma {:induction false} OffsetsAt(kept: seq<CapturedRequest>, first: nat, k: nat)
    requires first < |kept| && kept[first].timestamp != 0 && forall i :: 0 <= i < first ==> kept[i].timestamp == 0
    requires k < |kept|
    ensures |Offsets(kept)| == |kept|
    ensures Offsets(kept)[k] == if kept[k].timestamp == 0 then 0 else kept[k].timestamp - kept[first].timestamp
  {
    FirstKnown(kept, first);
    OffsetsLength(kept);
    var front := kept[..|kept| - 1];
    OffsetsLength(front);
    if k == |front| {
    } else if first < |front| {
      OffsetsAt(front, first, k);
    } else {
      AllUnknown(front, k);
    }
  }

  lemma {:induction false} FirstKnown(kept: seq<CapturedRequest>, first: nat)
    requires first < |kept| && kept[first].timestamp != 0 && forall i :: 0 <= i < first ==> kept[i].timestamp == 0
    ensures BaseTime(kept) == kept[first].timestamp
  {
    var front := kept[..|kept| - 1];
    if first == |front| {
      if front != [] {
        AllUnknown(front, 0);
      }
    } else {
      FirstKnown(front, first);
    }
  }

  lemma {:induction false} AllUnknown(kept: seq<CapturedRequest>, k: nat)
    requires (forall i :: 0 <= i < |kept| ==> kept[i].timestamp == 0) && k < |kept|
    ensures BaseTime(kept) == 0 && |Offsets(kept)| == |kept| && Offsets(kept)[k] == 0
  {
    var front := kept[..|kept| - 1];
    OffsetsLength(front);
    if front != [] {
      AllUnknown(front, if k < |front| then k else 0);
    }
  }

  lemma {:induction false} OffsetsLength(kept: seq<CapturedRequest>)
    ensures |Offsets(kept)| == |kept|
  {
    if kept == [] {
    } else {
      OffsetsLength(kept[..|kept| - 1]);
    }
  }

  // ---------------------------------------------------------------------
  // The timeline
  // ---------------------------------------------------------------------

  /** Recorded time waited through, up to the k-th request of the shard. */
  function Elapsed(kept: seq<CapturedRequest>, k: nat): nat
    requires k < |kept|
  {
    if k == 0 then 0
    else Elapsed(kept, k - 1) + Gap(kept[k - 1].timestamp, kept[k].timestamp)
  }

  function Gap(prev: nat, t: nat): nat {
    if prev != 0 && t > prev then t - prev else 0
  }

  function GapOf(w: Wait): nat {
    if w.Sleep? then w.gap else 0
  }

  function TotalGap(waits: seq<Wait>): nat {
    if waits == [] then 0 else TotalGap(waits[..|waits| - 1]) + GapOf(waits[|waits| - 1])
  }

  /** The waits the loops emit add up to the recorded time. */
  lemma {:induction false} TotalGapIsElapsed(c: Config, kept: seq<CapturedRequest>, k: nat)
    requires k < |kept| && c.mode.OriginalTiming?
    ensures |Waits(c, kept)| == |kept| && TotalGap(Waits(c, kept)[..k + 1]) == Elapsed(kept, k)
  {
    WaitsAt(c, kept);
    var waits := Waits(c, kept);
    assert waits[..k + 1][..k] == waits[..k];
    if k == 0 {
      assert waits[..1][..0] == [];
    } else {
      TotalGapIsElapsed(c, kept, k - 1);
    }
  }

  ghost predicate Known(kept: seq<CapturedRequest>) {
    forall i :: 0 <= i < |kept| ==> kept[i].timestamp != 0
  }

  ghost predicate InOrder(kept: seq<CapturedRequest>, k: nat)
    requires k < |kept|
  {
    forall i :: 0 <= i < k ==> kept[i].timestamp <= kept[i + 1].timestamp
  }

  /** The k-th request never comes early, and comes exactly on its recorded time if and only if the
      recorded times up to it never go back. */
  lemma {:induction false} Timeline(kept: seq<CapturedRequest>, k: nat)
    requires Known(kept) && k < |kept|
    ensures Elapsed(kept, k) >= kept[k].timestamp - kept[0].timestamp
    ensures Elapsed(kept, k) == kept[k].timestamp - kept[0].timestamp <==> InOrder(kept, k)
  {
    if k == 0 {
    } else {
      Timeline(kept, k - 1);
      assert InOrder(kept, k) <==> InOrder(kept, k - 1) && kept[k - 1].timestamp <= kept[k].timestamp;
    }
  }

  // --- with the time scale ----------------------------------------------

  /** How long the waits last, when a recorded time n lasts `times(n)`. */
  function Slept(waits: seq<Wait>, times: int -> real): real {
    if waits == [] then 0.0 else Slept(waits[..|waits| - 1], times) + times(GapOf(waits[|waits| - 1]))
  }

  ghost predicate Additive(times: int -> real) {
    times(0) == 0.0 && forall a, b :: times(a + b) == times(a) + times(b)
  }

  ghost predicate Increasing(times: int -> real) {
    forall a, b :: a < b ==> times(a) < times(b)
  }

  lemma {:induction false} SleptIsScaled(waits: seq<Wait>, times: int -> real)
    requires Additive(times)
    ensures Slept(waits, times) == times(TotalGap(waits))
  {
    if waits == [] {
    } else {
      var init, gap := waits[..|waits| - 1], GapOf(waits[|waits| - 1]);
      SleptIsScaled(init, times);
      assert times(TotalGap(init) + gap) == times(TotalGap(init)) + times(gap);
    }
  }

  /** How long a recorded time lasts at a scale: as many times the scale. */
  function Lasting(n: int, scale: real): real
    decreases if n < 0 then -n else n
  {
    if n == 0 then 0.0 else if n > 0 then Lasting(n - 1, scale) + scale else Lasting(n + 1, scale) - scale
  }

  /** Which is their product. */
  lemma {:induction false} LastingIsProduct(n: int, scale: real)
    ensures Lasting(n, scale) == n as real * scale
    decreases if n < 0 then -n else n
  {
    if n == 0 {
    } else if n > 0 {
      LastingIsProduct(n - 1, scale);
      OneMoreProduct(n as real, (n - 1) as real, scale);
    } else {
      LastingIsProduct(n + 1, scale);
      OneMoreProduct((n + 1) as real, n as real, scale);
    }
  }

  lemma OneMoreProduct(a: real, b: real, scale: real)
    requires a == b + 1.0
    ensures a * scale == b * scale + scale
  {
    assert (b + 1.0) * scale == b * scale + scale;
  }

  function Scaled(scale: real): int -> real {
    (n: int) => Lasting(n, scale)
  }

  lemma {:induction false} LastingSum(a: int, b: int, scale: real)
    ensures Lasting(a + b, scale) == Lasting(a, scale) + Lasting(b, scale)
    decreases if b < 0 then -b else b
  {
    if b == 0 {
    } else if b > 0 {
      LastingSum(a, b - 1, scale);
      OneMoreLasts(a + b - 1, scale);
    } else {
      LastingSum(a, b + 1, scale);
      OneMoreLasts(a + b, scale);
    }
  }

  lemma OneMoreLasts(n: int, scale: real)
    ensures Lasting(n + 1, scale) == Lasting(n, scale) + scale
  {
  }

  lemma ScaledAdditive(scale: real)
    ensures Additive(Scaled(scale))
  {
    forall a, b ensures Scaled(scale)(a + b) == Scaled(scale)(a) + Scaled(scale)(b) {
      LastingSum(a, b, scale);
    }
  }

  lemma {:induction false} LastingPositive(n: nat, scale: real)
    requires n > 0 && scale > 0.0
    ensures Lasting(n, scale) > 0.0
  {
    if n == 1 {
      assert Lasting(0, scale) == 0.0;
    } else {
      LastingPositive(n - 1, scale);
    }
  }

  lemma ScaledIncreasing(scale: real)
    requires scale > 0.0
    ensures Increasing(Scaled(scale))
  {
    forall a: int, b: int | a < b ensures Scaled(scale)(a) < Scaled(scale)(b) {
      LastingSum(a, b - a, scale);
      LastingPositive(b - a, scale);
    }
  }

  lemma {:induction false} SleptUpTo(c: Config, kept: seq<CapturedRequest>, k: nat, times: int -> real)
    requires k < |kept| && c.mode.OriginalTiming? && Additive(times)
    ensures |Waits(c, kept)| == |kept| && Slept(Waits(c, kept)[..k + 1], times) == times(Elapsed(kept, k))
  {
    TotalGapIsElapsed(c, kept, k);
    SleptIsScaled(Waits(c, kept)[..k + 1], times);
  }

  /** When a recorded time n lasts `times(n)`: what the loop waits until it hands on the k-th request is at least the
      time since the first, and exactly that if and only if the recorded times up to it never go back. */
  ghost predicate KeepsTime(c: Config, kept: seq<CapturedRequest>, k: nat, times: int -> real)
    requires k < |kept| == |Waits(c, kept)|
  {
    var slept, recorded := Slept(Waits(c, kept)[..k + 1], times), times(kept[k].timestamp - kept[0].timestamp);
    slept >= recorded && (slept == recorded <==> InOrder(kept, k))
  }

  lemma {:induction false} StretchedTimeline(c: Config, kept: seq<CapturedRequest>, k: nat, times: int -> real)
    requires Known(kept) && k < |kept| && c.mode.OriginalTiming? && Additive(times) && Increasing(times)
    ensures |Waits(c, kept)| == |kept| && KeepsTime(c, kept, k, times)
  {
    SleptUpTo(c, kept, k, times);
    Timeline(kept, k);
  }

  /** Every sleep is for the gap to the request before, at the configured scale. */
  lemma SleepsAtScale(c: Config, kept: seq<CapturedRequest>, i: nat)
    requires c.mode.OriginalTiming? && i < |kept|
    ensures |Waits(c, kept)| == |kept|
    ensures Waits(c, kept)[i].Sleep? ==>
      && i > 0 && kept[i].timestamp > kept[i - 1].timestamp
      && Waits(c, kept)[i] == Sleep(kept[i].timestamp - kept[i - 1].timestamp, c.scale)
  {
    WaitsAt(c, kept);
  }

  /** Time runs at the configured scale. */
  lemma {:induction false} ScaledTimeline(c: Config, kept: seq<CapturedRequest>, k: nat)
    requires Known(kept) && k < |kept| && c.mode.OriginalTiming? && c.scale > 0.0
    ensures |Waits(c, kept)| == |kept| && KeepsTime(c, kept, k, Scaled(c.scale))
  {
    ScaledAdditive(c.scale);
    ScaledIncreasing(c.scale);
    StretchedTimeline(c, kept, k, Scaled(c.scale));
  }

  // --- shards side by side ----------------------------------------------

  ghost predicate Chronological(rs: seq<CapturedRequest>) {
    forall i, j :: 0 <= i < j < |rs| ==> rs[i].timestamp <= rs[j].timestamp
  }

  lemma {:induction false} FilterFrom(rs: seq<CapturedRequest>, keep: CapturedRequest -> bool, i: nat) returns (j: nat)
    requires i < |Filter(rs, keep)|
    ensures j < |rs| && rs[j] == Filter(rs, keep)[i]
  {
    var front := Filter(rs[..|rs| - 1], keep);
    if i < |front| {
      j := FilterFrom(rs[..|rs| - 1], keep, i);
    } else {
      j := |rs| - 1;
    }
  }

  lemma {:induction false} FilterChronological(rs: seq<CapturedRequest>, keep: CapturedRequest -> bool)
    requires Chronological(rs)
    ensures Chronological(Filter(rs, keep))
  {
    if rs == [] {
    } else {
      var init, last := rs[..|rs| - 1], rs[|rs| - 1];
      FilterChronological(init, keep);
      forall i | 0 <= i < |Filter(init, keep)| ensures Filter(init, keep)[i].timestamp <= last.timestamp {
        var j := FilterFrom(init, keep, i);
        assert init[j] == rs[j];
      }
    }
  }

  lemma FilterKnown(rs: seq<CapturedRequest>, keep: CapturedRequest -> bool)
    requires Known(rs)
    ensures Known(Filter(rs, keep))
  {
    forall i | 0 <= i < |Filter(rs, keep)| ensures Filter(rs, keep)[i].timestamp != 0 {
      var j := FilterFrom(rs, keep, i);
    }
  }

  /**
   Shards side by side: on a capture recorded in order, a shard hands a request on at the moment an
   unsharded replay would, if and only if the shard's first request carries the capture's first
   timestamp. Otherwise the whole shard runs ahead by the difference, since its own first request is
   sent without waiting.
   */
  lemma {:induction false} ShardTimeline(owns: CapturedRequest -> bool, capture: seq<CapturedRequest>, i: nat, j: nat)
    requires Known(capture) && Chronological(capture) && j < |capture|
    requires i < |Filter(capture, owns)| && Filter(capture, owns)[i].timestamp == capture[j].timestamp
    ensures var shard := Filter(capture, owns);
            && Elapsed(capture, j) - Elapsed(shard, i) == shard[0].timestamp - capture[0].timestamp
            && (Elapsed(shard, i) == Elapsed(capture, j) <==> shard[0].timestamp == capture[0].timestamp)
  {
    var shard := Filter(capture, owns);
    FilterChronological(capture, owns);
    FilterKnown(capture, owns);
    Timeline(capture, j);
    Timeline(shard, i);
  }

  /** The shard hands on a request ahead of the unsharded replay by the time between their first requests. */
  ghost predicate RunsAhead(c: Config, capture: seq<CapturedRequest>, i: nat, j: nat, times: int -> real)
    requires j < |capture| == |Waits(c, capture)|
    requires var shard := Filter(capture, c.owns); i < |shard| == |Waits(c, shard)|
  {
    var shard := Filter(capture, c.owns);
    Slept(Waits(c, capture)[..j + 1], times)
    == Slept(Waits(c, shard)[..i + 1], times) + times(shard[0].timestamp - capture[0].timestamp)
  }

  lemma {:induction false} StretchedShard(c: Config, capture: seq<CapturedRequest>, i: nat, j: nat, times: int -> real)
    requires Known(capture) && Chronological(capture) && j < |capture| && c.mode.OriginalTiming? && Additive(times)
    requires i < |Filter(capture, c.owns)| && Filter(capture, c.owns)[i].timestamp == capture[j].timestamp
    ensures |Waits(c, capture)| == |capture| && |Waits(c, Filter(capture, c.owns))| == |Filter(capture, c.owns)|
    ensures RunsAhead(c, capture, i, j, times)
  {
    var shard := Filter(capture, c.owns);
    ShardTimeline(c.owns, capture, i, j);
    SleptUpTo(c, capture, j, times);
    SleptUpTo(c, shard, i, times);
    var ahead := shard[0].timestamp - capture[0].timestamp;
    assert times(Elapsed(shard, i) + ahead) == times(Elapsed(shard, i)) + times(ahead);
  }

  /** The same with the scale: the shard runs ahead by the scaled difference. */
  lemma {:induction false} ScaledShardTimeline(c: Config, capture: seq<CapturedRequest>, i: nat, j: nat)
    requires Known(capture) && Chronological(capture) && j < |capture| && c.mode.OriginalTiming?
    requires i < |Filter(capture, c.owns)| && Filter(capture, c.owns)[i].timestamp == capture[j].timestamp
    ensures |Waits(c, capture)| == |capture| && |Waits(c, Filter(capture, c.owns))| == |Filter(capture, c.owns)|
    ensures RunsAhead(c, capture, i, j, Scaled(c.scale))
  {
    ScaledAdditive(c.scale);
    StretchedShard(c, capture, i, j, Scaled(c.scale));
  }

  /** Two requests a second apart: the shard that owns only the second one sends it at once, the unsharded
      replay a second later. */
  lemma ShardRunsAhead(first: CapturedRequest, second: CapturedRequest)
    requires first.timestamp == 1_000_000_000 && second.timestamp == 2_000_000_000
    ensures var capture, shard := [first, second], Filter([first, second], (r: CapturedRequest) => r == second);
            shard == [second] && Elapsed(shard, 0) == 0 && Elapsed(capture, 1) == 1_000_000_000
  {
    var keep := (r: CapturedRequest) => r == second;
    FilterSnoc([], first, keep);
    FilterSnoc([first], second, keep);
    assert [] + [first] == [first] && [first] + [second] == [first, second] && [] + [second] == [second];
    var capture := [first, second];
    assert Elapsed(capture, 0) == 0 && Elapsed(capture, 1) == Elapsed(capture, 0)
        + Gap(capture[0].timestamp, capture[1].timestamp);
  }
}
