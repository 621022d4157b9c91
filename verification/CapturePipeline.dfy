/**
 The capture pipeline of an agent: handlers enqueue mirrored requests without ever waiting, one drainer
 passes them to the batching writer, a ticker flushes in between, and Close drains, flushes and closes.
 The steps interleave freely, except that no handler call is in flight when Close begins.
 */
module CapturePipeline {
  import opened Options
  import opened Calendar
  import opened Capture
  import opened ObjectWriter
  import opened CaptureReader
  import opened RoundTrip
  import Runs

  datatype Drainer = Free | Holding(r: CapturedRequest) | Flushing

  /** Where Close stands; `Returned` carries what it returned. */
  datatype Closing = NotYet | Draining | LastFlush | LastClose | Returned(result: Result)

  /** `active` counts handler calls in flight. `writer` is the storage writer after `calls`; `entered` and
      `passed` record what was ever enqueued and what was ever handed to storage. */
  datatype Pipe = Pipe(
    total: nat, filtered: nat, dropped: nat, enqueued: nat, active: nat,
    capacity: nat, queue: seq<CapturedRequest>,
    drainer: Drainer, batch: nat, pending: nat, writeErrors: nat, closing: Closing,
    writer: Writer, calls: seq<Call>,
    entered: seq<CapturedRequest>, passed: seq<CapturedRequest>)

  function Start(now: nat, capacity: nat, batch: nat): Pipe {
    Pipe(0, 0, 0, 0, 0, capacity, [], Free, batch, 0, 0, NotYet, Fresh(now), [], [], [])
  }

  datatype Action =
    | Arrive | FilterOut | BodyFails | Enqueue(r: CapturedRequest) | QueueFull | Refuse
    | Take | WriteThrough(env: Env) | FlushBatch(env: Env) | Tick(env: Env)
    | BeginClose | Drained | CloseFlush(env: Env) | CloseWriter(env: Env)

  function Done(p: Pipe): Pipe
    requires p.active > 0
  {
    p.(active := p.active - 1)
  }

  /** `CaptureHandler.Handle` and `AsyncWriter.Write`. */
  function Handler(p: Pipe, a: Action): Option<Pipe> {
    match a
    case Arrive => Some(p.(total := p.total + 1, active := p.active + 1))
    case FilterOut => if p.active == 0 then None else Some(Done(p).(filtered := p.filtered + 1))
    case BodyFails => if p.active == 0 then None else Some(Done(p).(dropped := p.dropped + 1))
    case Enqueue(r) =>
      if p.active == 0 || !p.closing.NotYet? || |p.queue| >= p.capacity then None
      else Some(Done(p).(queue := p.queue + [r], enqueued := p.enqueued + 1, entered := p.entered + [r]))
    case QueueFull =>
      if p.active == 0 || !p.closing.NotYet? || |p.queue| < p.capacity then None
      else Some(Done(p).(dropped := p.dropped + 1))
    case Refuse => if p.active == 0 || p.closing.NotYet? then None else Some(Done(p).(dropped := p.dropped + 1))
    case _ => None
  }

  /** One call on the storage writer, as its own mutex serialises them. */
  function Called(c: Config, p: Pipe, call: Call): Pipe {
    p.(writer := Perform(c, p.writer, call).0, calls := p.calls + [call])
  }

  function Failed(c: Config, p: Pipe, call: Call): bool {
    !Perform(c, p.writer, call).1.Ok?
  }

  /** `drain`, `BufferedWriter.Write` and the flush loop. */
  function Storage(c: Config, p: Pipe, a: Action): Option<Pipe> {
    match a
    case Take =>
      if !p.drainer.Free? || p.queue == [] then None
      else Some(p.(drainer := Holding(p.queue[0]), queue := p.queue[1..]))
    case WriteThrough(env) =>
      if !p.drainer.Holding? then None
      else
        var call := WriteCall(Some(p.drainer.r), env);
        var q := Called(c, p, call).(passed := p.passed + [p.drainer.r]);
        if Failed(c, p, call) then Some(q.(drainer := Free, writeErrors := p.writeErrors + 1))
        else Some(q.(drainer := if p.pending + 1 >= p.batch then Flushing else Free, pending := p.pending + 1))
    case FlushBatch(env) =>
      if !p.drainer.Flushing? then None
      else
        var q := Called(c, p, FlushCall(env)).(drainer := Free, pending := 0);
        Some(if Failed(c, p, FlushCall(env)) then q.(writeErrors := p.writeErrors + 1) else q)
    case Tick(env) =>
      if p.pending == 0 || !(p.closing.NotYet? || p.closing.Draining?) then None
      else Some(Called(c, p, FlushCall(env)).(pending := 0))
    case _ => None
  }

  /** `AsyncWriter.Close` and `BufferedWriter.Close`. */
  function Shutdown(c: Config, p: Pipe, a: Action): Option<Pipe> {
    match a
    case BeginClose => if p.closing.NotYet? && p.active == 0 then Some(p.(closing := Draining)) else None
    case Drained =>
      if p.closing.Draining? && p.queue == [] && p.drainer.Free? then Some(p.(closing := LastFlush)) else None
    case CloseFlush(env) =>
      if p.closing.LastFlush? then Some(Called(c, p, FlushCall(env)).(closing := LastClose)) else None
    case CloseWriter(env) =>
      if p.closing.LastClose?
      then Some(Called(c, p, CloseCall(env)).(closing := Returned(Perform(c, p.writer, CloseCall(env)).1)))
      else None
    case _ => None
  }

  function Next(c: Config, p: Pipe, a: Action): Option<Pipe> {
    if a.Arrive? || a.FilterOut? || a.BodyFails? || a.Enqueue? || a.QueueFull? || a.Refuse? then Handler(p, a)
    else if a.Take? || a.WriteThrough? || a.FlushBatch? || a.Tick? then Storage(c, p, a)
    else Shutdown(c, p, a)
  }

  // ---------------------------------------------------------------------
  // What every step keeps
  // ---------------------------------------------------------------------

  ghost predicate Counted(p: Pipe) {
    p.total == p.filtered + p.dropped + p.enqueued + p.active && |p.entered| == p.enqueued
  }

  function InHand(d: Drainer): seq<CapturedRequest> {
    if d.Holding? then [d.r] else []
  }

  /** First in, first out: passed on, in the drainer's hand, or still queued, in this order. */
  ghost predicate InOrder(p: Pipe) {
    p.entered == p.passed + InHand(p.drainer) + p.queue && |p.queue| <= p.capacity
  }

  /** Nothing is left when Close gets to the storage writer. */
  ghost predicate Finished(p: Pipe) {
    p.closing.LastFlush? || p.closing.LastClose? || p.closing.Returned? ==> p.queue == [] && p.drainer.Free?
  }

  /** The storage writer lives through the recorded calls, takes everything passed to it, and is only closed
      at the very end. */
  ghost predicate Stored(c: Config, start: nat, p: Pipe) {
    && p.writer == Lifetime(c, start, p.calls)
    && p.writer.accepted == p.passed
    && (p.writer.closed ==> p.closing == Returned(Ok))
    && (p.closing == Returned(Ok) ==> p.writer.closed)
  }

  ghost predicate Inv(c: Config, start: nat, p: Pipe) {
    Counted(p) && InOrder(p) && Finished(p) && Stored(c, start, p)
  }

  /** A flush touches nothing but the storage writer. */
  lemma FlushStored(c: Config, start: nat, p: Pipe, env: Env)
    requires Stored(c, start, p) && !p.writer.closed
    ensures Stored(c, start, Called(c, p, FlushCall(env)))
  {
  }

  lemma HandOver(p: Pipe, r: CapturedRequest)
    requires InOrder(p) && p.drainer == Holding(r)
    ensures p.entered == p.passed + [r] + [] + p.queue
  {
  }

  lemma WriteKeeps(c: Config, start: nat, p: Pipe, env: Env, q: Pipe)
    requires Inv(c, start, p) && Storage(c, p, WriteThrough(env)) == Some(q)
    ensures Inv(c, start, q)
  {
    var r := p.drainer.r;
    HandOver(p, r);
    var w := Called(c, p, WriteCall(Some(r), env)).(passed := p.passed + [r]);
    assert q == w.(drainer := q.drainer, pending := q.pending, writeErrors := q.writeErrors) && InHand(q.drainer) == [];
    assert Stored(c, start, q);
  }

  lemma TakeKeeps(c: Config, start: nat, p: Pipe, q: Pipe)
    requires Inv(c, start, p) && Storage(c, p, Take) == Some(q)
    ensures Inv(c, start, q)
  {
    assert p.queue == [p.queue[0]] + q.queue;
    assert p.passed + [] + ([p.queue[0]] + q.queue) == p.passed + [p.queue[0]] + q.queue;
  }

  lemma StorageKeeps(c: Config, start: nat, p: Pipe, a: Action, q: Pipe)
    requires Inv(c, start, p) && Storage(c, p, a) == Some(q)
    ensures Inv(c, start, q)
  {
    match a
    case Take => TakeKeeps(c, start, p, q);
    case WriteThrough(env) => WriteKeeps(c, start, p, env, q);
    case FlushBatch(env) => FlushStored(c, start, p, env);
    case Tick(env) => FlushStored(c, start, p, env);
  }

  lemma ShutdownKeeps(c: Config, start: nat, p: Pipe, a: Action, q: Pipe)
    requires Inv(c, start, p) && Shutdown(c, p, a) == Some(q)
    ensures Inv(c, start, q)
  {
    match a
    case CloseFlush(env) => FlushStored(c, start, p, env);
    case CloseWriter(env) =>
    case _ =>
  }

  lemma NextKeeps(c: Config, start: nat, p: Pipe, a: Action)
    requires Inv(c, start, p) && Next(c, p, a).Some?
    ensures Inv(c, start, Next(c, p, a).value)
  {
    var q := Next(c, p, a).value;
    if Storage(c, p, a) == Some(q) {
      StorageKeeps(c, start, p, a, q);
    } else if Shutdown(c, p, a) == Some(q) {
      ShutdownKeeps(c, start, p, a, q);
    }
  }

  // ---------------------------------------------------------------------
  // Whole runs
  // ---------------------------------------------------------------------

  ghost function Stepper(c: Config): (Pipe, Action) -> Option<Pipe> {
    (p: Pipe, a: Action) => Next(c, p, a)
  }

  ghost predicate RunsTo(c: Config, start: nat, capacity: nat, batch: nat, actions: seq<Action>, p: Pipe) {
    Runs.Run(Stepper(c), Start(start, capacity, batch), actions) == Some(p)
  }

  lemma RunKeeps(c: Config, start: nat, capacity: nat, batch: nat, actions: seq<Action>, p: Pipe)
    requires RunsTo(c, start, capacity, batch, actions, p)
    ensures Inv(c, start, p)
  {
    forall x, a | Inv(c, start, x) && Stepper(c)(x, a).Some? ensures Inv(c, start, Stepper(c)(x, a).value) {
      NextKeeps(c, start, x, a);
    }
    Runs.Induction(Stepper(c), x => Inv(c, start, x), a => true, Start(start, capacity, batch), actions, p);
  }

  // --- what the actions say ----------------------------------------------

  function Happened(actions: seq<Action>, test: Action -> bool): nat {
    if actions == [] then 0
    else Happened(actions[..|actions| - 1], test) + if test(actions[|actions| - 1]) then 1 else 0
  }

  function Arrives(a: Action): bool { a.Arrive? }

  function Filters(a: Action): bool { a.FilterOut? }

  function Enqueues(a: Action): bool { a.Enqueue? }

  /** The three ways to lose a request: its body cannot be read, the queue is full, the writer is closed. */
  function Drops(a: Action): bool { a.BodyFails? || a.QueueFull? || a.Refuse? }

  /** The counters say what happened: arrivals, requests filtered out, dropped and enqueued, each on its own. */
  lemma {:induction false} CountersTellWhatHappened(c: Config, start: nat, capacity: nat, batch: nat,
                                                    actions: seq<Action>, p: Pipe)
    requires RunsTo(c, start, capacity, batch, actions, p)
    ensures p.total == Happened(actions, Arrives) && p.filtered == Happened(actions, Filters)
    ensures p.dropped == Happened(actions, Drops) && p.enqueued == Happened(actions, Enqueues)
    ensures p.capacity == capacity && p.batch == batch
  {
    if actions == [] {
    } else {
      var init, last := actions[..|actions| - 1], actions[|actions| - 1];
      var q := Runs.Run(Stepper(c), Start(start, capacity, batch), init).value;
      CountersTellWhatHappened(c, start, capacity, batch, init, q);
      assert Stepper(c)(q, last) == Next(c, q, last);
    }
  }

  /** A request is dropped for want of room only if the queue is full, and enqueued only if it is not; after
      Close has begun it is neither. */
  lemma RoomDecides(p: Pipe, r: CapturedRequest)
    requires p.active > 0
    ensures Handler(p, Enqueue(r)).Some? <==> p.closing.NotYet? && |p.queue| < p.capacity
    ensures Handler(p, QueueFull).Some? <==> p.closing.NotYet? && |p.queue| >= p.capacity
    ensures Handler(p, Refuse).Some? <==> !p.closing.NotYet?
  {
  }

  /** A write is an error if storage refuses it, or the flush that its batch calls for; the ticker's flushes do not
      count. A batch is flushed when it has as many writes as configured, and not before. */
  lemma StorageErrors(c: Config, p: Pipe, a: Action, q: Pipe)
    requires Storage(c, p, a) == Some(q)
    ensures match a
            case Take => q.writeErrors == p.writeErrors && q.calls == p.calls
            case WriteThrough(env) =>
              var result := AfterWrite(c, p.writer, Some(p.drainer.r), env).1;
              && q.writeErrors == p.writeErrors + (if result.Ok? then 0 else 1)
              && q.pending == p.pending + (if result.Ok? then 1 else 0)
              && (q.drainer.Flushing? <==> result.Ok? && q.pending >= p.batch)
            case FlushBatch(env) =>
              var result := AfterFlush(c, p.writer, env).1;
              q.writeErrors == p.writeErrors + (if result.Ok? then 0 else 1) && q.pending == 0 && q.drainer.Free?
            case Tick(env) => q.writeErrors == p.writeErrors && q.pending == 0 && p.pending > 0
            case _ => false
  {
  }

  /** Unless a flush is due, fewer writes are pending than make a batch. */
  ghost predicate BatchFits(p: Pipe) {
    p.drainer.Flushing? || p.pending == 0 || p.pending < p.batch
  }

  lemma BatchesStaySmall(c: Config, start: nat, capacity: nat, batch: nat, actions: seq<Action>, p: Pipe)
    requires RunsTo(c, start, capacity, batch, actions, p)
    ensures BatchFits(p)
  {
    forall x, a | BatchFits(x) && Stepper(c)(x, a).Some? ensures BatchFits(Stepper(c)(x, a).value) {
      assert Stepper(c)(x, a) == Next(c, x, a);
    }
    Runs.Induction(Stepper(c), x => BatchFits(x), a => true, Start(start, capacity, batch), actions, p);
  }

  /** At every moment: every call is accounted for, and the drainer has passed on exactly the requests that
      entered first, in the order they entered. */
  lemma PipelineInvariant(c: Config, start: nat, capacity: nat, batch: nat, actions: seq<Action>, p: Pipe)
    requires RunsTo(c, start, capacity, batch, actions, p)
    ensures Inv(c, start, p)
    ensures p.active == 0 ==> p.total == p.filtered + p.dropped + p.enqueued
    ensures p.passed <= p.entered && p.writer.accepted == p.passed
  {
    RunKeeps(c, start, capacity, batch, actions, p);
    assert p.entered == p.passed + (InHand(p.drainer) + p.queue);
  }

  /** When Close returns without an error, the committed objects hold every request that was ever enqueued,
      each once and in order, whether or not its write was counted as an error. */
  lemma ClosedStoresEverything(c: Config, start: nat, capacity: nat, batch: nat, actions: seq<Action>, p: Pipe)
    requires RunsTo(c, start, capacity, batch, actions, p) && p.closing == Returned(Ok) && NumbersSeparate(c)
    ensures Batches(p.writer.commits) == p.entered
    ensures |p.entered| == p.enqueued && Valid(c, p.writer)
    ensures p.writer == Lifetime(c, start, p.calls) && p.writer.closed
  {
    PipelineInvariant(c, start, capacity, batch, actions, p);
    LifetimeValid(c, start, p.calls);
    assert p.entered == p.passed;
    assert Batches(p.writer.commits) + [] == Batches(p.writer.commits);
  }

  /** End to end: what the handlers enqueued is what a reader of the finished capture gets. */
  lemma CaptureRoundTrip(c: Config, at: Location, start: nat, capacity: nat, batch: nat, actions: seq<Action>, p: Pipe,
                         store: map<string, string>, pages: seq<seq<string>>)
    requires RunsTo(c, start, capacity, batch, actions, p) && p.closing == Returned(Ok)
    requires at.captureID != "" && c.objectName == CloudObjectName(at) && Lawful(c.codec)
          && Scannable(c.codec, p.entered)
    requires DatesAdvance(p.calls) && forall i :: 0 <= i < |p.calls| ==> Printable(DateOf(p.calls[i].env.name))
    requires p.writer.sequence < 1_000_000 && p.writer.strays == []
    requires Shows(store, p.writer.objects, BuildObjectPrefix(at.prefix, at.captureID)) && IsListing(pages, store)
    ensures ReadBack(c.codec, BuildObjectPrefix(at.prefix, at.captureID), store, pages, NoFilter(at.captureID))
          == Yield(p.entered, false)
  {
    PipelineInvariant(c, start, capacity, batch, actions, p);
    assert p.entered == p.passed;
    LifetimeAccepts(c, start, p.calls);
    LifetimeRoundTrip(c, at, start, p.calls, store, pages);
  }

  /** Uploads that fail without storing anything leave no stray object. */
  lemma {:induction false} NoStrays(c: Config, start: nat, calls: seq<Call>)
    requires forall i :: 0 <= i < |calls| ==> !calls[i].env.upload.StoredThenFailed?
    ensures Lifetime(c, start, calls).strays == []
  {
    if calls == [] {
    } else {
      NoStrays(c, start, calls[..|calls| - 1]);
    }
  }
}
