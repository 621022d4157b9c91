/**
 The replay engine at work: one reader feeds a bounded channel, a number of senders take requests from it,
 count them and hand their results to the result handler. The steps of all of them interleave freely; the
 run is not cancelled.
 */
module ReplayEngine {
  import opened Options
  import opened Capture
  import opened Pacing
  import opened Sharding
  import opened Collections
  import Runs

  /** What the read loop makes of a request. */
  datatype Verdict = Skip | Drop | Pass(request: CapturedRequest)

  /** The shard filter and then the transformers. */
  function Judge(c: Config, ts: seq<Transformer>, r: CapturedRequest): Verdict {
    if !c.owns(r) then Skip
    else match Transformed(ts, r)
         case None => Drop
         case Some(s) => Pass(s)
  }

  function EngineVerdict(c: Config, ts: seq<Transformer>): CapturedRequest -> Verdict {
    (r: CapturedRequest) => Judge(c, ts, r)
  }

  /** `failed`: the result carries an error. */
  datatype Result = Result(request: CapturedRequest, failed: bool, category: string, status: int)

  /** What a sender returns: maybe a result, and the category of the error the call itself returned, if any. */
  datatype Answer = Answer(result: Option<Result>, error: Option<string>)

  datatype Sender = Waiting | Sending(request: CapturedRequest) | Recording(result: Result) | Finished

  /** `taken` records what the senders took, in this order. */
  datatype Engine = Engine(
    verdict: CapturedRequest -> Verdict, capacity: nat,
    todo: seq<CapturedRequest>, done: seq<CapturedRequest>,
    held: Option<CapturedRequest>, channel: seq<CapturedRequest>, closed: bool,
    senders: seq<Sender>,
    skipped: nat, filtered: nat, sent: nat, errors: nat,
    results: seq<Result>, taken: seq<CapturedRequest>)

  function Start(verdict: CapturedRequest -> Verdict, concurrency: int, input: seq<CapturedRequest>): Engine {
    var n := if concurrency <= 0 then 1 else concurrency;
    Engine(verdict, 2 * n, input, [], None, [], false, seq(n, i => Waiting), 0, 0, 0, 0, [], [])
  }

  datatype Action =
    | Read | Offer | CloseChannel
    | Take(i: nat) | Answered(i: nat, answer: Answer) | Record(i: nat) | Leave(i: nat)

  function Reader(e: Engine, a: Action): Option<Engine> {
    match a
    case Read =>
      if e.todo == [] || e.held.Some? || e.closed then None
      else
        var r, f := e.todo[0], e.(todo := e.todo[1..], done := e.done + [e.todo[0]]);
        var v := e.verdict(r);
        Some(if v.Skip? then f.(skipped := e.skipped + 1)
             else if v.Drop? then f.(filtered := e.filtered + 1)
             else f.(held := Some(v.request)))
    case Offer =>
      if e.held.None? || |e.channel| >= e.capacity then None
      else Some(e.(held := None, channel := e.channel + [e.held.value]))
    case CloseChannel => if e.todo == [] && e.held.None? && !e.closed then Some(e.(closed := true)) else None
    case _ => None
  }

  /** A missing result is replaced by a failed one. */
  function ResultOf(r: CapturedRequest, a: Answer): Option<Result> {
    if a.result.Some? then
      if a.result.value.request == r then a.result else None
    else if a.error.Some? then Some(Result(r, true, a.error.value, 0))
    else None
  }

  function Worker(e: Engine, a: Action): Option<Engine> {
    match a
    case Take(i) =>
      if i < |e.senders| && e.senders[i].Waiting? && e.channel != []
      then Some(e.(channel := e.channel[1..], senders := e.senders[i := Sending(e.channel[0])],
                   taken := e.taken + [e.channel[0]]))
      else None
    case Answered(i, answer) =>
      if i < |e.senders| && e.senders[i].Sending? && ResultOf(e.senders[i].request, answer).Some?
      then
        var f := e.(senders := e.senders[i := Recording(ResultOf(e.senders[i].request, answer).value)]);
        Some(if answer.error.Some? then f.(errors := e.errors + 1) else f.(sent := e.sent + 1))
      else None
    case Record(i) =>
      if i < |e.senders| && e.senders[i].Recording?
      then Some(e.(senders := e.senders[i := Waiting], results := e.results + [e.senders[i].result]))
      else None
    case Leave(i) =>
      if i < |e.senders| && e.senders[i].Waiting? && e.channel == [] && e.closed
      then Some(e.(senders := e.senders[i := Finished]))
      else None
    case _ => None
  }

  function Next(e: Engine, a: Action): Option<Engine> {
    if a.Read? || a.Offer? || a.CloseChannel? then Reader(e, a) else Worker(e, a)
  }

  /** `Run` has returned from waiting for the senders. */
  predicate Over(e: Engine) {
    forall i :: 0 <= i < |e.senders| ==> e.senders[i].Finished?
  }

  // ---------------------------------------------------------------------
  // Conservation
  // ---------------------------------------------------------------------

  function Forwarded(verdict: CapturedRequest -> Verdict, rs: seq<CapturedRequest>): seq<CapturedRequest> {
    if rs == [] then []
    else
      var init, last := Forwarded(verdict, rs[..|rs| - 1]), verdict(rs[|rs| - 1]);
      if last.Pass? then init + [last.request] else init
  }

  /** The interleaved engine forwards exactly what the read loop on its own computes. */
  lemma {:induction false} ForwardedMatches(c: Config, ts: seq<Transformer>, rs: seq<CapturedRequest>)
    ensures var kept, out := Filter(rs, Passing(ts, c)), Forwarded(EngineVerdict(c, ts), rs);
            |out| == |kept| && forall i :: 0 <= i < |kept| ==> Transformed(ts, kept[i]) == Some(out[i])
  {
    if rs == [] {
    } else {
      ForwardedMatches(c, ts, rs[..|rs| - 1]);
      var r := rs[|rs| - 1];
      assert EngineVerdict(c, ts)(r) == Judge(c, ts, r);
    }
  }

  lemma {:induction false} SkipsMatch(c: Config, ts: seq<Transformer>, rs: seq<CapturedRequest>)
    ensures Skips(EngineVerdict(c, ts), rs) + |Filter(rs, c.owns)| == |rs|
  {
    if rs == [] {
    } else {
      SkipsMatch(c, ts, rs[..|rs| - 1]);
      assert EngineVerdict(c, ts)(rs[|rs| - 1]) == Judge(c, ts, rs[|rs| - 1]);
    }
  }

  lemma ForwardedIsRead(c: Config, ts: seq<Transformer>, input: seq<CapturedRequest>, out: seq<CapturedRequest>,
                        waits: seq<Wait>,
                        skipped: nat, filtered: nat)
    requires Progress(c, ts, input, out, waits, skipped, filtered)
    ensures out == Forwarded(EngineVerdict(c, ts), input)
    ensures skipped == Skips(EngineVerdict(c, ts), input) && filtered == Drops(EngineVerdict(c, ts), input)
  {
    ForwardedMatches(c, ts, input);
    SkipsMatch(c, ts, input);
    VerdictsAddUp(EngineVerdict(c, ts), input);
    var forwarded := Forwarded(EngineVerdict(c, ts), input);
    forall i | 0 <= i < |out| ensures out[i] == forwarded[i] {
      assert Some(out[i]) == Transformed(ts, Filter(input, Passing(ts, c))[i]) == Some(forwarded[i]);
    }
  }

  function Requests(results: seq<Result>): seq<CapturedRequest> {
    if results == [] then [] else Requests(results[..|results| - 1]) + [results[|results| - 1].request]
  }

  /** The requests in the hands of one sender. */
  function InHand(s: Sender): multiset<CapturedRequest> {
    match s
    case Sending(r) => multiset{r}
    case Recording(result) => multiset{result.request}
    case _ => multiset{}
  }

  function InHands(senders: seq<Sender>): multiset<CapturedRequest> {
    if senders == [] then multiset{} else InHands(senders[..|senders| - 1]) + InHand(senders[|senders| - 1])
  }

  /** How many senders are in a state that passes the test. */
  function Tally(senders: seq<Sender>, test: Sender -> bool): nat {
    if senders == [] then 0
    else Tally(senders[..|senders| - 1], test) + if test(senders[|senders| - 1]) then 1 else 0
  }

  function HasResult(s: Sender): bool { s.Recording? }

  function HasFailure(s: Sender): bool { s.Recording? && s.result.failed }

  /** The requests read that belong to other shards, and those that a transformer dropped. */
  function Skips(verdict: CapturedRequest -> Verdict, rs: seq<CapturedRequest>): nat {
    if rs == [] then 0
    else Skips(verdict, rs[..|rs| - 1]) + if verdict(rs[|rs| - 1]).Skip? then 1 else 0
  }

  function Drops(verdict: CapturedRequest -> Verdict, rs: seq<CapturedRequest>): nat {
    if rs == [] then 0
    else Drops(verdict, rs[..|rs| - 1]) + if verdict(rs[|rs| - 1]).Drop? then 1 else 0
  }

  lemma {:induction false} VerdictsAddUp(verdict: CapturedRequest -> Verdict, rs: seq<CapturedRequest>)
    ensures |rs| == Skips(verdict, rs) + Drops(verdict, rs) + |Forwarded(verdict, rs)|
  {
    if rs == [] {
    } else {
      VerdictsAddUp(verdict, rs[..|rs| - 1]);
    }
  }

  function Held(h: Option<CapturedRequest>): multiset<CapturedRequest> {
    match h case None => multiset{} case Some(r) => multiset{r}
  }

  /** Everything forwarded is in exactly one place: held by the reader, in the channel, in a sender's hands,
      or among the results. */
  ghost predicate Conserved(e: Engine) {
    Whereabouts(multiset(Forwarded(e.verdict, e.done)), Held(e.held), multiset(e.channel), InHands(e.senders),
      multiset(Requests(e.results)))
  }

  ghost predicate Whereabouts<T>(all: multiset<T>, held: multiset<T>, channel: multiset<T>, hands: multiset<T>,
                                 results: multiset<T>)
  {
    all == held + channel + hands + results
  }

  /** The counters agree. */
  ghost predicate Counted(e: Engine) {
    && e.skipped == Skips(e.verdict, e.done) && e.filtered == Drops(e.verdict, e.done)
    && e.sent + e.errors == |e.results| + Tally(e.senders, HasResult)
  }

  function HeldInLine(h: Option<CapturedRequest>): seq<CapturedRequest> {
    match h case None => [] case Some(r) => [r]
  }

  /** First in, first out: what was forwarded is taken, in the channel, or held by the reader, in this order. */
  ghost predicate InLine(e: Engine) {
    Forwarded(e.verdict, e.done) == e.taken + e.channel + HeldInLine(e.held)
  }

  lemma NextInLine(e: Engine, a: Action, f: Engine)
    requires InLine(e) && Next(e, a) == Some(f)
    ensures InLine(f)
  {
    match a
    case Read => ForwardedSnoc(e.verdict, e.done, e.todo[0]);
    case Take(i) => assert e.channel == [e.channel[0]] + f.channel;
    case _ =>
  }

  /** Only the reader closes the channel, when it is through. */
  ghost predicate Orderly(e: Engine) {
    && (e.closed ==> e.todo == [] && e.held.None?)
    && (forall i :: 0 <= i < |e.senders| && e.senders[i].Finished? ==> e.closed && e.channel == [])
    && |e.senders| > 0 && |e.channel| <= e.capacity && e.capacity > 0
  }

  lemma {:induction false} HandsUpdate(senders: seq<Sender>, i: nat, s: Sender)
    requires i < |senders|
    ensures InHands(senders[i := s]) + InHand(senders[i]) == InHands(senders) + InHand(s)
  {
    var n := |senders| - 1;
    var after := senders[i := s];
    HandsLast(senders, n);
    HandsLast(after, n);
    if i < n {
      HandsUpdate(senders[..n], i, s);
      assert after[..n] == senders[..n][i := s] && after[n] == senders[n];
      Swap(InHands(after[..n]), InHand(senders[i]), InHands(senders[..n]), InHand(s), InHand(senders[n]));
    } else {
      assert after[..n] == senders[..n] && after[n] == s;
      Turn(InHands(senders[..n]), InHand(s), InHand(senders[n]));
    }
  }

  lemma HandsLast(senders: seq<Sender>, n: nat)
    requires |senders| == n + 1
    ensures InHands(senders) == InHands(senders[..n]) + InHand(senders[n])
  {
  }

  lemma Turn<T>(a: multiset<T>, b: multiset<T>, c: multiset<T>)
    ensures a + b + c == a + c + b
  {
  }

  lemma SameHands(senders: seq<Sender>, i: nat, s: Sender)
    requires i < |senders| && InHand(s) == InHand(senders[i])
    ensures InHands(senders[i := s]) == InHands(senders)
  {
    HandsUpdate(senders, i, s);
    Cancel(InHands(senders[i := s]), InHands(senders), InHand(s));
  }

  lemma Swap<T>(a: multiset<T>, b: multiset<T>, c: multiset<T>, d: multiset<T>, x: multiset<T>)
    requires a + b == c + d
    ensures a + x + b == c + x + d
  {
    assert a + x + b == a + b + x && c + x + d == c + d + x;
  }

  lemma {:induction false} TallyUpdate(senders: seq<Sender>, i: nat, s: Sender, test: Sender -> bool)
    requires i < |senders|
    ensures Tally(senders[i := s], test) + (if test(senders[i]) then 1 else 0)
         == Tally(senders, test) + (if test(s) then 1 else 0)
  {
    var n := |senders| - 1;
    if i < n {
      TallyUpdate(senders[..n], i, s, test);
      assert senders[i := s][..n] == senders[..n][i := s];
    } else {
      assert senders[i := s][..n] == senders[..n];
    }
  }

  lemma ForwardedSnoc(verdict: CapturedRequest -> Verdict, rs: seq<CapturedRequest>, r: CapturedRequest)
    ensures Forwarded(verdict, rs + [r])
         == if verdict(r).Pass? then Forwarded(verdict, rs) + [verdict(r).request] else Forwarded(verdict, rs)
    ensures Skips(verdict, rs + [r]) == Skips(verdict, rs) + if verdict(r).Skip? then 1 else 0
    ensures Drops(verdict, rs + [r]) == Drops(verdict, rs) + if verdict(r).Drop? then 1 else 0
  {
    assert (rs + [r])[..|rs|] == rs;
  }

  // --- requests move from place to place ---------------------------------

  lemma Enqueue<T>(all: multiset<T>, channel: multiset<T>, hands: multiset<T>, results: multiset<T>, x: T)
    requires Whereabouts(all, multiset{x}, channel, hands, results)
    ensures Whereabouts(all, multiset{}, channel + multiset{x}, hands, results)
  {
  }

  lemma Dequeue<T>(all: multiset<T>, held: multiset<T>, channel: multiset<T>, hands: multiset<T>, results: multiset<T>,
                   x: T, after: multiset<T>)
    requires Whereabouts(all, held, multiset{x} + channel, hands, results) && after + multiset{} == hands + multiset{x}
    ensures Whereabouts(all, held, channel, after, results)
  {
    assert after == hands + multiset{x};
  }

  lemma Hand<T>(all: multiset<T>, held: multiset<T>, channel: multiset<T>, hands: multiset<T>, results: multiset<T>,
                x: T, after: multiset<T>)
    requires Whereabouts(all, held, channel, hands, results) && after + multiset{x} == hands + multiset{}
    ensures Whereabouts(all, held, channel, after, results + multiset{x})
  {
    assert hands == after + multiset{x};
  }

  lemma ReaderConserves(e: Engine, a: Action, f: Engine)
    requires Conserved(e) && Reader(e, a) == Some(f)
    ensures Conserved(f)
  {
    var all, channel, hands, results := multiset(Forwarded(e.verdict, e.done)), multiset(e.channel),
        InHands(e.senders), multiset(Requests(e.results));
    match a
    case Read =>
      ForwardedSnoc(e.verdict, e.done, e.todo[0]);
      var v := e.verdict(e.todo[0]);
      if v.Pass? {
        assert multiset(Forwarded(f.verdict, f.done)) == all + multiset{v.request};
      }
    case Offer =>
      Enqueue(all, channel, hands, results, e.held.value);
      assert multiset(f.channel) == channel + multiset{e.held.value};
    case _ =>
  }

  lemma HeadOff(channel: seq<CapturedRequest>)
    requires channel != []
    ensures multiset(channel) == multiset{channel[0]} + multiset(channel[1..])
  {
    assert channel == [channel[0]] + channel[1..];
  }

  /** A waiting sender takes the head of the channel. */
  lemma TakeMoves(all: multiset<CapturedRequest>, held: multiset<CapturedRequest>, channel: seq<CapturedRequest>,
                  senders: seq<Sender>,
                  results: multiset<CapturedRequest>, i: nat)
    requires Whereabouts(all, held, multiset(channel), InHands(senders), results) && channel != [] && i < |senders|
          && senders[i].Waiting?
    ensures Whereabouts(all, held, multiset(channel[1..]), InHands(senders[i := Sending(channel[0])]), results)
  {
    HeadOff(channel);
    HandsUpdate(senders, i, Sending(channel[0]));
    Dequeue(all, held, multiset(channel[1..]), InHands(senders), results, channel[0],
      InHands(senders[i := Sending(channel[0])]));
  }

  /** An answer stays in the hands of its sender. */
  lemma AnswerMoves(all: multiset<CapturedRequest>, held: multiset<CapturedRequest>,
                    channel: multiset<CapturedRequest>, senders: seq<Sender>,
                    results: multiset<CapturedRequest>, i: nat, res: Result)
    requires Whereabouts(all, held, channel, InHands(senders), results) && i < |senders|
          && senders[i] == Sending(res.request)
    ensures Whereabouts(all, held, channel, InHands(senders[i := Recording(res)]), results)
  {
    SameHands(senders, i, Recording(res));
  }

  /** A result is recorded. */
  lemma RecordMoves(all: multiset<CapturedRequest>, held: multiset<CapturedRequest>,
                    channel: multiset<CapturedRequest>, senders: seq<Sender>,
                    results: seq<Result>, i: nat)
    requires Whereabouts(all, held, channel, InHands(senders), multiset(Requests(results))) && i < |senders|
          && senders[i].Recording?
    ensures Whereabouts(all, held, channel, InHands(senders[i := Waiting]),
          multiset(Requests(results + [senders[i].result])))
  {
    var x := senders[i].result;
    HandsUpdate(senders, i, Waiting);
    Hand(all, held, channel, InHands(senders), multiset(Requests(results)), x.request, InHands(senders[i := Waiting]));
    assert multiset(Requests(results) + [x.request]) == multiset(Requests(results)) + multiset{x.request};
  }

  lemma TakeConserves(e: Engine, i: nat, f: Engine)
    requires Conserved(e) && Worker(e, Take(i)) == Some(f)
    ensures Conserved(f)
  {
    TakeMoves(multiset(Forwarded(e.verdict, e.done)), Held(e.held), e.channel, e.senders,
      multiset(Requests(e.results)), i);
  }

  lemma AnsweredConserves(e: Engine, i: nat, answer: Answer, f: Engine)
    requires Conserved(e) && Worker(e, Answered(i, answer)) == Some(f)
    ensures Conserved(f)
  {
    var res := ResultOf(e.senders[i].request, answer).value;
    AnswerMoves(multiset(Forwarded(e.verdict, e.done)), Held(e.held), multiset(e.channel), e.senders,
      multiset(Requests(e.results)), i, res);
  }

  lemma RecordConserves(e: Engine, i: nat, f: Engine)
    requires Conserved(e) && Worker(e, Record(i)) == Some(f)
    ensures Conserved(f)
  {
    RecordMoves(multiset(Forwarded(e.verdict, e.done)), Held(e.held), multiset(e.channel), e.senders, e.results, i);
  }

  lemma LeaveConserves(e: Engine, i: nat, f: Engine)
    requires Conserved(e) && Worker(e, Leave(i)) == Some(f)
    ensures Conserved(f)
  {
    SameHands(e.senders, i, Finished);
  }

  lemma WorkerConserves(e: Engine, a: Action, f: Engine)
    requires Conserved(e) && Worker(e, a) == Some(f)
    ensures Conserved(f)
  {
    match a
    case Take(i) => TakeConserves(e, i, f);
    case Answered(i, answer) => AnsweredConserves(e, i, answer, f);
    case Record(i) => RecordConserves(e, i, f);
    case Leave(i) => LeaveConserves(e, i, f);
  }

  /** A verdict is counted when its request is read. */
  lemma ReadCounts(e: Engine, f: Engine)
    requires e.skipped == Skips(e.verdict, e.done) && e.filtered == Drops(e.verdict, e.done)
    requires Reader(e, Read) == Some(f)
    ensures f.skipped == Skips(f.verdict, f.done) && f.filtered == Drops(f.verdict, f.done)
    ensures f.sent == e.sent && f.errors == e.errors && f.results == e.results && f.senders == e.senders
  {
    ForwardedSnoc(e.verdict, e.done, e.todo[0]);
  }

  /** An answer is counted when it comes, and its result is recorded later. */
  lemma WorkerCounts(e: Engine, a: Action, f: Engine)
    requires e.sent + e.errors == |e.results| + Tally(e.senders, HasResult) && Worker(e, a) == Some(f)
    ensures f.sent + f.errors == |f.results| + Tally(f.senders, HasResult)
    ensures f.verdict == e.verdict && f.done == e.done && f.skipped == e.skipped && f.filtered == e.filtered
  {
    TallyUpdate(e.senders, a.i, f.senders[a.i], HasResult);
  }

  lemma NextCounts(e: Engine, a: Action, f: Engine)
    requires Counted(e) && Next(e, a) == Some(f)
    ensures Counted(f)
  {
    if a.Read? {
      ReadCounts(e, f);
    } else if a.Offer? || a.CloseChannel? {
      assert f == e.(held := f.held, channel := f.channel, closed := f.closed);
    } else {
      WorkerCounts(e, a, f);
    }
  }

  lemma NextOrderly(e: Engine, a: Action, f: Engine)
    requires Orderly(e) && Next(e, a) == Some(f)
    ensures Orderly(f)
  {
  }

  ghost predicate Inv(e: Engine) {
    Conserved(e) && Counted(e) && Orderly(e) && InLine(e)
  }

  lemma NextKeeps(e: Engine, a: Action)
    requires Inv(e) && Next(e, a).Some?
    ensures Inv(Next(e, a).value)
  {
    var f := Next(e, a).value;
    NextCounts(e, a, f);
    NextOrderly(e, a, f);
    NextInLine(e, a, f);
    if a.Read? || a.Offer? || a.CloseChannel? {
      ReaderConserves(e, a, f);
    } else {
      WorkerConserves(e, a, f);
    }
  }

  // ---------------------------------------------------------------------
  // Whole runs
  // ---------------------------------------------------------------------

  ghost function Stepper(): (Engine, Action) -> Option<Engine> {
    (e: Engine, a: Action) => Next(e, a)
  }

  ghost function Run(e: Engine, actions: seq<Action>): Option<Engine> {
    Runs.Run(Stepper(), e, actions)
  }

  /** The input that has been or will be read. */
  ghost predicate Reads(e: Engine, verdict: CapturedRequest -> Verdict, input: seq<CapturedRequest>) {
    e.verdict == verdict && e.done + e.todo == input
  }

  lemma NextReads(e: Engine, a: Action, verdict: CapturedRequest -> Verdict, input: seq<CapturedRequest>)
    requires Reads(e, verdict, input) && Next(e, a).Some?
    ensures Reads(Next(e, a).value, verdict, input)
  {
    if a.Read? {
      assert e.todo == [e.todo[0]] + e.todo[1..];
    }
  }

  lemma {:induction false} AllWaiting(n: nat, senders: seq<Sender>)
    requires |senders| == n && forall i :: 0 <= i < n ==> senders[i].Waiting?
    ensures InHands(senders) == multiset{} && Tally(senders, HasResult) == 0 && Tally(senders, HasFailure) == 0
  {
    if n == 0 {
    } else {
      AllWaiting(n - 1, senders[..n - 1]);
    }
  }

  lemma {:induction false} NobodyBusy(senders: seq<Sender>)
    requires forall i :: 0 <= i < |senders| ==> senders[i].Finished?
    ensures InHands(senders) == multiset{} && Tally(senders, HasResult) == 0 && Tally(senders, HasFailure) == 0
  {
    if senders == [] {
    } else {
      NobodyBusy(senders[..|senders| - 1]);
    }
  }

  lemma StartInv(verdict: CapturedRequest -> Verdict, concurrency: int, input: seq<CapturedRequest>)
    ensures RunInv(Start(verdict, concurrency, input), verdict, input)
  {
    var e := Start(verdict, concurrency, input);
    AllWaiting(|e.senders|, e.senders);
    assert multiset(e.channel) == multiset{} && multiset(Requests(e.results)) == multiset{}
        && multiset(Forwarded(verdict, e.done)) == multiset{};
  }

  ghost predicate RunInv(e: Engine, verdict: CapturedRequest -> Verdict, input: seq<CapturedRequest>) {
    Inv(e) && Reads(e, verdict, input)
  }

  lemma NextRunInv(e: Engine, a: Action, verdict: CapturedRequest -> Verdict, input: seq<CapturedRequest>)
    requires RunInv(e, verdict, input) && Next(e, a).Some?
    ensures RunInv(Next(e, a).value, verdict, input)
  {
    NextKeeps(e, a);
    NextReads(e, a, verdict, input);
  }

  lemma RunKeeps(verdict: CapturedRequest -> Verdict, concurrency: int, input: seq<CapturedRequest>,
                 actions: seq<Action>, e: Engine)
    requires Run(Start(verdict, concurrency, input), actions) == Some(e)
    ensures RunInv(e, verdict, input)
  {
    StartInv(verdict, concurrency, input);
    forall x, a | RunInv(x, verdict, input) && Stepper()(x, a).Some?
      ensures RunInv(Stepper()(x, a).value, verdict, input)
    {
      NextRunInv(x, a, verdict, input);
    }
    Runs.Induction(Stepper(), x => RunInv(x, verdict, input), a => true, Start(verdict, concurrency, input), actions,
      e);
  }

  // --- what the actions say ----------------------------------------------

  /** How many answers the senders got with an error, or without one. */
  function Answers(actions: seq<Action>, erred: bool): nat {
    if actions == [] then 0
    else
      var last := actions[|actions| - 1];
      Answers(actions[..|actions| - 1], erred)
      + if last.Answered? && last.answer.error.Some? == erred then 1 else 0
  }

  /** An answer that is recorded as a failure: its result says so, or it has none. */
  predicate IsFailure(a: Answer) {
    a.result.None? || a.result.value.failed
  }

  function Failures(actions: seq<Action>): nat {
    if actions == [] then 0
    else
      var last := actions[|actions| - 1];
      Failures(actions[..|actions| - 1]) + if last.Answered? && IsFailure(last.answer) then 1 else 0
  }

  /** The failures recorded, or about to be. */
  ghost function FailuresOf(e: Engine): nat {
    Count(e.results, IsFailed) + Tally(e.senders, HasFailure)
  }

  lemma ActionCounts(e: Engine, a: Action, f: Engine)
    requires Next(e, a) == Some(f)
    ensures f.errors == e.errors + if a.Answered? && a.answer.error.Some? then 1 else 0
    ensures f.sent == e.sent + if a.Answered? && a.answer.error.None? then 1 else 0
    ensures FailuresOf(f) == FailuresOf(e) + if a.Answered? && IsFailure(a.answer) then 1 else 0
  {
    if a.Take? || a.Answered? || a.Record? || a.Leave? {
      TallyUpdate(e.senders, a.i, f.senders[a.i], HasFailure);
    }
  }

  lemma {:induction false} CountedFromActions(e: Engine, actions: seq<Action>, f: Engine)
    requires Run(e, actions) == Some(f)
    ensures f.errors == e.errors + Answers(actions, true) && f.sent == e.sent + Answers(actions, false)
    ensures FailuresOf(f) == FailuresOf(e) + Failures(actions)
  {
    if actions == [] {
    } else {
      var init := actions[..|actions| - 1];
      var u := Run(e, init).value;
      CountedFromActions(e, init, u);
      assert Stepper()(u, actions[|actions| - 1]) == Next(u, actions[|actions| - 1]);
      ActionCounts(u, actions[|actions| - 1], f);
    }
  }

  lemma StartCounts(verdict: CapturedRequest -> Verdict, concurrency: int, input: seq<CapturedRequest>)
    ensures FailuresOf(Start(verdict, concurrency, input)) == 0
  {
    var e := Start(verdict, concurrency, input);
    AllWaiting(|e.senders|, e.senders);
  }

  /**
   Replay conservation: whatever the interleaving, when all senders are through every request read was
   skipped, filtered, sent or counted as an error, each as its verdict and its answer say; every request that
   was forwarded has exactly one result, and nothing else has one; and as many results are failures as answers
   came without a result or with a failed one.
   */
  lemma ReplayConservation(verdict: CapturedRequest -> Verdict, concurrency: int, input: seq<CapturedRequest>,
                           actions: seq<Action>, e: Engine)
    requires Run(Start(verdict, concurrency, input), actions) == Some(e) && Over(e)
    ensures |input| == e.skipped + e.filtered + e.sent + e.errors
    ensures e.skipped == Skips(verdict, input) && e.filtered == Drops(verdict, input)
    ensures e.errors == Answers(actions, true) && e.sent == Answers(actions, false)
    ensures multiset(Requests(e.results)) == multiset(Forwarded(verdict, input))
    ensures |e.results| == e.sent + e.errors && Count(e.results, IsFailed) == Failures(actions)
  {
    RunKeeps(verdict, concurrency, input, actions, e);
    StartCounts(verdict, concurrency, input);
    CountedFromActions(Start(verdict, concurrency, input), actions, e);
    NobodyBusy(e.senders);
    assert e.senders[0].Finished?;
    assert e.done == input by { assert e.done + [] == e.done; }
    VerdictsAddUp(verdict, input);
    SameLength(Requests(e.results), Forwarded(verdict, input));
    RequestsLength(e.results);
  }

  // --- order and room ----------------------------------------------------

  /** With a single sender: what it has recorded and what it has in its hands is what was taken, in order. */
  ghost predicate OneByOne(e: Engine) {
    |e.senders| == 1 && e.taken == Requests(e.results) + InHandInLine(e.senders[0])
  }

  function InHandInLine(s: Sender): seq<CapturedRequest> {
    match s
    case Sending(r) => [r]
    case Recording(result) => [result.request]
    case _ => []
  }

  lemma NextOneByOne(e: Engine, a: Action, f: Engine)
    requires OneByOne(e) && Next(e, a) == Some(f)
    ensures OneByOne(f)
  {
    if a.Record? {
      assert f.results[..|e.results|] == e.results;
    }
  }

  lemma {:induction false} RunOneByOne(e: Engine, actions: seq<Action>, f: Engine)
    requires OneByOne(e) && Run(e, actions) == Some(f)
    ensures OneByOne(f)
  {
    if actions == [] {
    } else {
      var init := actions[..|actions| - 1];
      var u := Run(e, init).value;
      RunOneByOne(e, init, u);
      assert Stepper()(u, actions[|actions| - 1]) == Next(u, actions[|actions| - 1]);
      NextOneByOne(u, actions[|actions| - 1], f);
    }
  }

  /** Requests are taken in the order in which they were forwarded, by any number of senders; a single sender
      also records its results in this order. */
  lemma InCaptureOrder(verdict: CapturedRequest -> Verdict, concurrency: int, input: seq<CapturedRequest>,
                       actions: seq<Action>, e: Engine)
    requires Run(Start(verdict, concurrency, input), actions) == Some(e)
    ensures e.taken <= Forwarded(verdict, e.done) && e.done <= input
    ensures Over(e) ==> e.taken == Forwarded(verdict, input)
    ensures Over(e) && concurrency <= 1 ==> Requests(e.results) == Forwarded(verdict, input)
  {
    RunKeeps(verdict, concurrency, input, actions, e);
    TakenFirst(Forwarded(verdict, e.done), e.taken, e.channel, HeldInLine(e.held));
    if Over(e) {
      AllTaken(e, verdict, input);
      if concurrency <= 1 {
        assert OneByOne(Start(verdict, concurrency, input));
        RunOneByOne(Start(verdict, concurrency, input), actions, e);
        assert Requests(e.results) + [] == Requests(e.results);
      }
    }
  }

  lemma TakenFirst<T>(all: seq<T>, taken: seq<T>, channel: seq<T>, held: seq<T>)
    requires all == taken + channel + held
    ensures taken <= all
  {
    assert taken + channel + held == taken + (channel + held);
  }

  lemma AllTaken(e: Engine, verdict: CapturedRequest -> Verdict, input: seq<CapturedRequest>)
    requires Orderly(e) && InLine(e) && Reads(e, verdict, input) && Over(e)
    ensures e.done == input && e.taken == Forwarded(verdict, input)
  {
    assert e.senders[0].Finished?;
    assert e.done + [] == e.done && e.taken + [] + [] == e.taken;
  }

  function IsBusy(s: Sender): bool { s.Sending? || s.Recording? }

  /** `n` senders, a channel of twice that, and every request taken has its result or a sender. */
  ghost predicate Roomy(e: Engine, n: nat) {
    |e.senders| == n && e.capacity == 2 * n && |e.taken| == |e.results| + Tally(e.senders, IsBusy)
  }

  lemma NextRoomy(e: Engine, a: Action, f: Engine, n: nat)
    requires Roomy(e, n) && Next(e, a) == Some(f)
    ensures Roomy(f, n)
  {
    if a.Take? || a.Answered? || a.Record? || a.Leave? {
      TallyUpdate(e.senders, a.i, f.senders[a.i], IsBusy);
    }
  }

  lemma {:induction false} RunRoomy(e: Engine, actions: seq<Action>, f: Engine, n: nat)
    requires Roomy(e, n) && Run(e, actions) == Some(f)
    ensures Roomy(f, n)
  {
    if actions == [] {
    } else {
      var init := actions[..|actions| - 1];
      var u := Run(e, init).value;
      RunRoomy(e, init, u, n);
      assert Stepper()(u, actions[|actions| - 1]) == Next(u, actions[|actions| - 1]);
      NextRoomy(u, actions[|actions| - 1], f, n);
    }
  }

  lemma {:induction false} TallyBounded(senders: seq<Sender>, test: Sender -> bool)
    ensures Tally(senders, test) <= |senders|
  {
    if senders == [] {
    } else {
      TallyBounded(senders[..|senders| - 1], test);
    }
  }

  lemma {:induction false} NoneTallied(senders: seq<Sender>, test: Sender -> bool)
    requires forall i :: 0 <= i < |senders| ==> !test(senders[i])
    ensures Tally(senders, test) == 0
  {
    if senders == [] {
    } else {
      NoneTallied(senders[..|senders| - 1], test);
    }
  }

  /** The reader is never further ahead than the room for it: with n senders, at most 3n + 1 of the requests it
      has forwarded are without a result. */
  lemma NeverFarAhead(verdict: CapturedRequest -> Verdict, concurrency: int, input: seq<CapturedRequest>,
                      actions: seq<Action>, e: Engine)
    requires Run(Start(verdict, concurrency, input), actions) == Some(e)
    ensures var n := if concurrency <= 0 then 1 else concurrency;
            |Forwarded(verdict, e.done)| - |e.results| <= 3 * n + 1
  {
    var n := if concurrency <= 0 then 1 else concurrency;
    var start := Start(verdict, concurrency, input);
    NoneTallied(start.senders, IsBusy);
    RunRoomy(start, actions, e, n);
    RunKeeps(verdict, concurrency, input, actions, e);
    TallyBounded(e.senders, IsBusy);
  }

  lemma SameLength(a: seq<CapturedRequest>, b: seq<CapturedRequest>)
    requires multiset(a) == multiset(b)
    ensures |a| == |b|
  {
    assert |multiset(a)| == |a| && |multiset(b)| == |b|;
  }

  lemma {:induction false} RequestsLength(results: seq<Result>)
    ensures |Requests(results)| == |results|
  {
    if results == [] {
    } else {
      RequestsLength(results[..|results| - 1]);
    }
  }

  // ---------------------------------------------------------------------
  // Every run ends, and only when it is over
  // ---------------------------------------------------------------------

  function Work(s: Sender): nat {
    match s
    case Waiting => 1
    case Sending(r) => 3
    case Recording(result) => 2
    case Finished => 0
  }

  function AllWork(senders: seq<Sender>): nat {
    if senders == [] then 0 else AllWork(senders[..|senders| - 1]) + Work(senders[|senders| - 1])
  }

  function Remaining(e: Engine): nat {
    5 * |e.todo| + (if e.held.Some? then 4 else 0) + 3 * |e.channel| + (if e.closed then 0 else 1) + AllWork(e.senders)
  }

  lemma {:induction false} WorkUpdate(senders: seq<Sender>, i: nat, s: Sender)
    requires i < |senders|
    ensures AllWork(senders[i := s]) + Work(senders[i]) == AllWork(senders) + Work(s)
  {
    var n := |senders| - 1;
    if i < n {
      WorkUpdate(senders[..n], i, s);
      assert senders[i := s][..n] == senders[..n][i := s];
    } else {
      assert senders[i := s][..n] == senders[..n];
    }
  }

  /** Each step takes the engine closer to the end. */
  lemma NextProgresses(e: Engine, a: Action)
    requires Next(e, a).Some?
    ensures Remaining(Next(e, a).value) < Remaining(e)
  {
    if a.Take? || a.Answered? || a.Record? || a.Leave? {
      WorkUpdate(e.senders, a.i, Next(e, a).value.senders[a.i]);
    }
  }

  /** And as long as it is not over, somebody can make a step. */
  lemma NotStuck(e: Engine)
    requires Orderly(e) && !Over(e)
    ensures exists a :: Next(e, a).Some?
  {
    var i :| 0 <= i < |e.senders| && !e.senders[i].Finished?;
    match e.senders[i]
    case Sending(r) => assert Next(e, Answered(i, Answer(None, Some("unknown")))).Some?;
    case Recording(result) => assert Next(e, Record(i)).Some?;
    case Waiting =>
      if e.channel != [] {
        assert Next(e, Take(i)).Some?;
      } else if e.closed {
        assert Next(e, Leave(i)).Some?;
      } else if e.held.Some? {
        assert Next(e, Offer).Some?;
      } else if e.todo != [] {
        assert Next(e, Read).Some?;
      } else {
        assert Next(e, CloseChannel).Some?;
      }
  }

  // ---------------------------------------------------------------------
  // The summary
  // ---------------------------------------------------------------------

  function Count(results: seq<Result>, p: Result -> bool): nat {
    if results == [] then 0 else Count(results[..|results| - 1], p) + if p(results[|results| - 1]) then 1 else 0
  }

  datatype Summary = Summary(total: nat, success: nat, errors: nat, statuses: map<int, nat>, categories: map<string,
    nat>)

  function HasStatus(c: int): Result -> bool {
    (r: Result) => r.status == c
  }

  function HasCategory(c: string): Result -> bool {
    (r: Result) => r.failed && r.category == c
  }

  function IsFailed(r: Result): bool { r.failed }

  /** Each row counts its results, and no result is without a row. */
  ghost predicate StatusesCounted(results: seq<Result>, m: map<int, nat>) {
    && (forall c :: c in m ==> c > 0 && m[c] == Count(results, HasStatus(c)) && m[c] > 0)
    && (forall i :: 0 <= i < |results| && results[i].status > 0 ==> results[i].status in m)
  }

  ghost predicate CategoriesCounted(results: seq<Result>, m: map<string, nat>) {
    && (forall c :: c in m ==> m[c] == Count(results, HasCategory(c)) && m[c] > 0)
    && (forall i :: 0 <= i < |results| && results[i].failed ==> results[i].category in m)
  }

  lemma {:induction false} NoneCounted(results: seq<Result>, p: Result -> bool)
    requires forall i :: 0 <= i < |results| ==> !p(results[i])
    ensures Count(results, p) == 0
  {
    if results == [] {
    } else {
      NoneCounted(results[..|results| - 1], p);
    }
  }

  lemma CountSnoc(results: seq<Result>, x: Result, p: Result -> bool)
    ensures Count(results + [x], p) == Count(results, p) + if p(x) then 1 else 0
  {
    assert (results + [x])[..|results|] == results;
  }

  function Bumped<K>(m: map<K, nat>, k: K): map<K, nat> {
    m[k := (if k in m then m[k] else 0) + 1]
  }

  lemma StatusNext(results: seq<Result>, m: map<int, nat>, x: Result)
    requires StatusesCounted(results, m)
    ensures StatusesCounted(results + [x], if x.status > 0 then Bumped(m, x.status) else m)
  {
    forall c | c in m ensures Count(results + [x], HasStatus(c)) == m[c] + if x.status == c then 1 else 0 {
      CountSnoc(results, x, HasStatus(c));
    }
    if x.status !in m {
      CountSnoc(results, x, HasStatus(x.status));
    }
    if x.status > 0 && x.status !in m {
      NoneCounted(results, HasStatus(x.status));
    }
  }

  lemma CategoryNext(results: seq<Result>, m: map<string, nat>, x: Result)
    requires CategoriesCounted(results, m)
    ensures CategoriesCounted(results + [x], if x.failed then Bumped(m, x.category) else m)
  {
    forall c | c in m
      ensures Count(results + [x], HasCategory(c)) == m[c] + if x.failed && x.category == c then 1 else 0
    {
      CountSnoc(results, x, HasCategory(c));
    }
    if x.category !in m {
      CountSnoc(results, x, HasCategory(x.category));
    }
    if x.failed && x.category !in m {
      NoneCounted(results, HasCategory(x.category));
    }
  }

  method Summarize(results: seq<Result>) returns (s: Summary)
    ensures s.total == |results| == s.success + s.errors
    ensures s.errors == Count(results, IsFailed)
    ensures StatusesCounted(results, s.statuses) && CategoriesCounted(results, s.categories)
  {
    s := Summary(|results|, 0, 0, map[], map[]);
    for i := 0 to |results|
      invariant s.total == |results| && s.success + s.errors == i && s.errors == Count(results[..i], IsFailed)
      invariant StatusesCounted(results[..i], s.statuses) && CategoriesCounted(results[..i], s.categories)
    {
      var r := results[i];
      assert results[..i + 1] == results[..i] + [r];
      StatusNext(results[..i], s.statuses, r);
      CategoryNext(results[..i], s.categories, r);
      if r.failed {
        s := s.(errors := s.errors + 1, categories := Bumped(s.categories, r.category));
      } else {
        s := s.(success := s.success + 1);
      }
      if r.status > 0 {
        s := s.(statuses := Bumped(s.statuses, r.status));
      }
    }
    assert results[..|results|] == results;
  }
}
