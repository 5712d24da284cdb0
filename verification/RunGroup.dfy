/** The worker's two loops as they run, proved to be runs of the worker machine that end. */
module RunGroup {
  import opened Basics
  import opened Arithmetic
  import opened HttpClient
  import opened Worker
  import opened WorkerSafety
  import opened WorkerTermination
  import opened TransferTask
  import Backoff

  /** One look at the outside world: everything a worker could notice at that moment. */
  datatype Sample = Sample(cancelled: bool, chunk: ChunkEnv, interrupted: bool, nanos: u64)

  /** What the outside world will answer, look by look. */
  type Oracle = nat -> Sample

  datatype ChunkRetryResult = Done(outcome: ChunkOutcome) | Cancelled | GaveUp(error: ErrorCode)

  ghost predicate HonestOracle(oracle: Oracle, resource: seq<byte>) {
    forall n :: HonestGet(oracle(n).chunk.get, resource)
  }

  /** A run of the worker machine so far: from `w0` by `inputs` to `w`, sending `log`. */
  datatype History = History(w0: Worker, file0: Option<seq<byte>>, inputs: seq<Input>,
                             w: Worker, file: Option<seq<byte>>, log: seq<WorkerEvent>)

  ghost predicate IsRun(h: History, resource: seq<byte>) {
    && FitsAll(h.w0, h.file0, h.inputs)
    && Replay(h.w0, h.file0, h.inputs) == (h.w, h.file, h.log)
    && HonestAll(h.inputs, resource)
  }

  /** The run with one more observation. */
  ghost function After(h: History, i: Input): History
    requires Fits(h.w, i)
  {
    var (w, file, ev) := Next(h.w, h.file, i);
    History(h.w0, h.file0, h.inputs + [i], w, file, h.log + ev)
  }

  lemma AfterIsRun(h: History, i: Input, resource: seq<byte>)
    requires IsRun(h, resource) && Fits(h.w, i) && HonestInput(i, resource)
    ensures IsRun(After(h, i), resource)
    ensures Calls(After(h, i).inputs) == Calls(h.inputs) + CallOf(i)
  {
    hide Next, HonestInput, Fits;
    var inputs := h.inputs + [i];
    assert inputs[..|inputs| - 1] == h.inputs;
  }

  /** A fresh worker prepares. */
  lemma PreparedRun(h: History, env: PrepareEnv, resource: seq<byte>)
    requires IsRun(h, resource) && h.w.phase.Preparing? && HonestHead(env.head, resource)
    ensures Fits(h.w, Prepared(env))
    ensures var h' := After(h, Prepared(env));
            && IsRun(h', resource) && Calls(h'.inputs) == Calls(h.inputs) && h'.inputs == h.inputs + [Prepared(env)]
            && (h'.w0, h'.file0, h'.file) == (h.w0, h.file0, h.file)
            && match Prepare(h.w.task, TaskIo(h.file, h.w.open), h.w.phase.start, env)
               case Err(e) => h'.w == h.w.(phase := Over) && h'.log == h.log + [WorkerEvent.Failed(h.w.key, e)]
               case Ok(o) =>
                 var total := if o.totalSize > 0 then o.totalSize else h.w.task.totalSize;
                 && h'.w == h.w.(phase := Looping(o.nextOffset, total))
                 && h'.log == h.log + []
  {
    hide IsRun, Calls, Prepare, HonestHead;
    AfterIsRun(h, Prepared(env), resource);
  }

  /** At the top of the chunk loop the worker looks at its token. */
  lemma PolledRun(h: History, cancelled: bool, resource: seq<byte>)
    requires IsRun(h, resource) && h.w.phase.Looping?
    ensures Fits(h.w, Polled(cancelled))
    ensures var h' := After(h, Polled(cancelled));
            && IsRun(h', resource) && Calls(h'.inputs) == Calls(h.inputs) && h.inputs <= h'.inputs
            && |h.inputs| < |h'.inputs|
            && h'.w == h.w.(phase := if cancelled then Over else Trying(h.w.phase.offset, h.w.phase.total, 0))
            && (h'.w0, h'.file0, h'.file) == (h.w0, h.file0, h.file)
            && h'.log == h.log + if cancelled then [WorkerEvent.Canceled(h.w.key)] else []
  {
    hide IsRun, Calls;
    AfterIsRun(h, Polled(cancelled), resource);
  }

  /** After a chunk the worker reports, and after the last one it ends. */
  lemma ReportedRun(h: History, resource: seq<byte>)
    requires IsRun(h, resource) && h.w.phase.Got?
    ensures Fits(h.w, Reported)
    ensures var h' := After(h, Reported);
            && IsRun(h', resource) && Calls(h'.inputs) == Calls(h.inputs) && h.inputs <= h'.inputs
            && |h.inputs| < |h'.inputs|
            && var o := h.w.phase.outcome;
               && h'.w == h.w.(phase := if o.done then Finishing(h.w.phase.total)
                                        else Looping(o.nextOffset, h.w.phase.total))
               && (h'.w0, h'.file0, h'.file) == (h.w0, h.file0, h.file)
               && h'.log == h.log + [Progress(h.w.key, o.nextOffset, h.w.phase.total)]
  {
    hide IsRun, Calls;
    AfterIsRun(h, Reported, resource);
  }

  lemma FinishedRun(h: History, resource: seq<byte>)
    requires IsRun(h, resource) && h.w.phase.Finishing?
    ensures Fits(h.w, Finished)
    ensures var h' := After(h, Finished);
            && IsRun(h', resource) && Calls(h'.inputs) == Calls(h.inputs) && h.inputs <= h'.inputs
            && h'.w == h.w.(phase := Over)
            && (h'.w0, h'.file0, h'.file) == (h.w0, h.file0, h.file)
            && h'.log == h.log + [Completed(h.w.key, h.w.phase.total)]
  {
    hide IsRun, Calls;
    AfterIsRun(h, Finished, resource);
  }

  /** The task on disk is where the run says the worker is. */
  ghost predicate AgreesWith(h: History, task: Task)
    reads task
  {
    h.w.task == task.inner && h.file == task.file && h.w.open == task.open
  }

  /**
   One chunk with retries: at most `max_chunk_retries + 1` attempts. `waits` are the clock readings behind
   each backoff and `delayMs` is what the backoffs add up to (a cancellation may cut the last one short);
   `h` is the run of the worker up to this chunk.
   */
  method TransferChunkWithRetry(task: Task, oracle: Oracle, look0: nat, offset: u64, total: u64,
                                ghost h: History, ghost resource: seq<byte>)
    returns (r: ChunkRetryResult, look: nat, attempts: nat, waits: seq<u64>, delayMs: nat,
            ghost h': History)
    requires IsRun(h, resource) && AgreesWith(h, task) && h.w.phase == Trying(offset, total, 0)
    requires HonestOracle(oracle, resource)
    modifies task
    ensures IsRun(h', resource) && AgreesWith(h', task) && (h'.w0, h'.file0, h'.w.key) == (h.w0, h.file0, h.w.key)
    ensures h.inputs <= h'.inputs
    ensures |waits| <= task.inner.maxChunkRetries && |waits| <= attempts <= |waits| + 1
    ensures delayMs == Backoff.TotalWait(waits) && delayMs <= Backoff.WaitLimit(task.inner.maxChunkRetries)
    ensures Calls(h'.inputs) == Calls(h.inputs) + attempts
    ensures match r
            case Done(outcome) =>
              && h'.w.phase == Got(outcome, if outcome.totalSize > 0 then outcome.totalSize else total)
              && h'.log == h.log
            case Cancelled => h'.w.phase.Over? && h'.log == h.log + [WorkerEvent.Canceled(h.w.key)]
            case GaveUp(e) => h'.w.phase.Over? && h'.log == h.log + [WorkerEvent.Failed(h.w.key, e)]
  {
    hide TransferChunk, IsRun, Slices, Calls, HonestGet, Backoff.Delay, Backoff.TotalWait, Backoff.WaitLimit;
    Backoff.NoWait();
    var attempt := 0;
    look, attempts, waits, delayMs, h' := look0, 0, [], 0, h;
    while true
      invariant IsRun(h', resource) && AgreesWith(h', task) && (h'.w0, h'.file0, h'.w.key) == (h.w0, h.file0, h.w.key)
      invariant h'.w.phase == Trying(offset, total, attempt) && h'.log == h.log
      invariant h.inputs <= h'.inputs
      invariant delayMs == Backoff.TotalWait(waits)
      invariant attempts == attempt == |waits| && attempt <= task.inner.maxChunkRetries
      invariant Calls(h'.inputs) == Calls(h.inputs) + attempts
      decreases task.inner.maxChunkRetries - attempt
    {
      // Is the token cancelled?
      var cancelled := oracle(look).cancelled;
      look := look + 1;
      AfterIsRun(h', Polled(cancelled), resource);
      h' := After(h', Polled(cancelled));
      if cancelled {
        r := Cancelled;
        break;
      }

      var env := oracle(look).chunk;
      look := look + 1;
      AfterIsRun(h', Attempted(env), resource);
      h' := After(h', Attempted(env));
      attempts := attempts + 1;
      var result := task.TransferOneChunk(offset, total, env);
      if result.Ok? {
        r := Done(result.value);
        break;
      }
      var retryable := IsRetryable(result.error);
      var reachedLimit := attempt >= task.inner.maxChunkRetries;
      if !retryable || reachedLimit {
        r := GaveUp(result.error);
        break;
      }

      // Back off, unless the token is cancelled meanwhile.
      Backoff.OneMoreWait(waits, oracle(look).nanos);
      waits := waits + [oracle(look).nanos];
      delayMs := delayMs + Backoff.Delay(attempt, oracle(look).nanos);
      var interrupted := oracle(look).interrupted;
      look := look + 1;
      AfterIsRun(h', if interrupted then Interrupted else Woke, resource);
      h' := After(h', if interrupted then Interrupted else Woke);
      if interrupted {
        r := Cancelled;
        break;
      }
      attempt := attempt + 1;
    }
    Backoff.TotalWaitBound(waits);
    Backoff.LimitGrows(|waits|, task.inner.maxChunkRetries);
  }

  /** What `RunIsSafeAndBounded` says about a run of a fresh worker. */
  lemma RunFacts(h: History, resource: seq<byte>)
    requires IsRun(h, resource) && h.w0.phase.Preparing? && WorkerOk(h.w0, h.file0, resource)
    ensures WorkerOk(h.w, h.file, resource) && LogOk(h.w, h.log) && CopiedOk(h.w, h.file, h.log, resource)
    ensures Calls(h.inputs) <= CallsLeft(h.w0, h.file0, resource)
    ensures |h.inputs| <= StepsLeft(h.w0, h.file0, resource)
  {
    hide Replay, FitsAll, CallsLeft, StepsLeft, WorkerOk;
    FreshLog(h.w0);
    RunIsSafeAndBounded(h.w0, h.file0, h.inputs, resource);
    CallsLeftNonNegative(h.w, h.file, resource);
    StepsLeftNonNegative(h.w, h.file, resource);
  }

  /** The chunk loop, from a prepared offset to the terminal event. */
  method ChunkLoop(key: Key, task: Task, oracle: Oracle, offset0: u64, total0: u64, ghost h0: History,
                   ghost resource: seq<byte>)
    returns (events: seq<WorkerEvent>, calls: nat, ghost h: History)
    requires IsRun(h0, resource) && AgreesWith(h0, task) && h0.w.phase == Looping(offset0, total0) && h0.w.key == key
    requires h0.w0.phase.Preparing? && WorkerOk(h0.w0, h0.file0, resource)
    requires HonestOracle(oracle, resource)
    modifies task
    ensures IsRun(h, resource) && AgreesWith(h, task) && (h.w0, h.file0) == (h0.w0, h0.file0)
    ensures h.log == h0.log + events && h.w.phase.Over? && h0.inputs <= h.inputs
    ensures Calls(h.inputs) == Calls(h0.inputs) + calls
  {
    hide TransferChunk, IsRun, After, Next, Fits, Slices, Calls, HonestGet, HonestHead, StepsLeft, LogOk, CopiedOk,
         WorkerOk;
    var offset, knownTotal, look := offset0, total0, 0;
    h, events, calls := h0, [], 0;
    while true
      invariant IsRun(h, resource) && AgreesWith(h, task) && (h.w0, h.file0, h.w.key) == (h0.w0, h0.file0, key)
      invariant h.w.phase == Looping(offset, knownTotal) && h.log == h0.log + events && h0.inputs <= h.inputs
      invariant Calls(h.inputs) == Calls(h0.inputs) + calls
      decreases StepsLeft(h0.w0, h0.file0, resource) - |h.inputs|
    {
      RunFacts(h, resource);
      var cancelled := oracle(look).cancelled;
      look := look + 1;
      PolledRun(h, cancelled, resource);
      h := After(h, Polled(cancelled));
      if cancelled {
        events := events + [WorkerEvent.Canceled(key)];
        break;
      }
      var result, look', attempts, _, _, h' :=
        TransferChunkWithRetry(task, oracle, look, offset, knownTotal, h, resource);
      look, calls, h := look', calls + attempts, h';
      if result.Cancelled? {
        events := events + [WorkerEvent.Canceled(key)];
        break;
      }
      if result.GaveUp? {
        events := events + [WorkerEvent.Failed(key, result.error)];
        break;
      }
      var outcome := result.outcome;
      if outcome.totalSize > 0 {
        knownTotal := outcome.totalSize;
      }
      offset := outcome.nextOffset;
      ReportedRun(h, resource);
      h := After(h, Reported);
      events := events + [Progress(key, outcome.nextOffset, knownTotal)];
      if outcome.done {
        FinishedRun(h, resource);
        h := After(h, Finished);
        events := events + [Completed(key, knownTotal)];
        break;
      }
    }
  }

  /**
   A whole worker, from prepare to its terminal event. It ends after at most
   `max(1, total - begin) * (max_chunk_retries + 1)` transfer calls, where `begin` is the prepared offset,
   sends growing progress offsets and then exactly one terminal event, and a download that reports `Completed` is a
   copy of the resource.
   */
  method Run(key: Key, task: Task, startOffset: u64, prepare: PrepareEnv, oracle: Oracle, ghost resource: seq<byte>)
    returns (events: seq<WorkerEvent>, calls: nat, ghost h: History)
    requires 1 <= task.inner.chunkSize && !task.open
    requires HonestOracle(oracle, resource) && HonestHead(prepare.head, resource)
    requires task.inner.direction == Download ==> task.Io().Content() <= resource
    modifies task
    ensures IsRun(h, resource) && AgreesWith(h, task)
    ensures h.w0 == NewWorker(key, task.inner, startOffset) && h.file0 == old(task.file)
    ensures h.log == events && h.w.phase.Over? && LogOk(h.w, events)
    ensures calls == Calls(h.inputs)
    ensures match Prepare(task.inner, old(task.Io()), startOffset, prepare)
            case Err(e) => calls == 0 && events == [WorkerEvent.Failed(key, e)]
            case Ok(o) => calls <= Max(1, Total(task.inner, resource) - o.nextOffset)
                                   * (task.inner.maxChunkRetries + 1)
    ensures task.inner.direction == Download ==>
              && task.Io().Content() <= resource
              && (events[|events| - 1].Completed? ==> task.Io().Content() == resource)
  {
    hide Prepare, IsRun, Calls, HonestGet, HonestHead, CallsLeft, StepsLeft, LogOk, CopiedOk, WorkerOk, Next, Fits,
         After,
         Max, Parsed, Fills, Announced;
    ghost var w0 := NewWorker(key, task.inner, startOffset);
    h := History(w0, task.file, [], w0, task.file, []);
    FreshRun(w0, task.file, resource);
    PreparedRun(h, prepare, resource);
    var prepared := task.PrepareTransfer(startOffset, prepare);
    h := After(h, Prepared(prepare));
    if prepared.Err? {
      events, calls := [WorkerEvent.Failed(key, prepared.error)], 0;
    } else {
      var total := if prepared.value.totalSize > 0 then prepared.value.totalSize else task.inner.totalSize;
      events, calls, h := ChunkLoop(key, task, oracle, prepared.value.nextOffset, total, h, resource);
    }
    RunFacts(h, resource);
    OverFacts(h, resource);
    RunCalls(h, prepare, resource);
  }

  /** The calls of a run that starts with this prepare. */
  lemma RunCalls(h: History, prepare: PrepareEnv, resource: seq<byte>)
    requires IsRun(h, resource) && h.w0.phase.Preparing? && WorkerOk(h.w0, h.file0, resource)
    requires h.inputs != [] && h.inputs[0] == Prepared(prepare)
    ensures match Prepare(h.w0.task, TaskIo(h.file0, h.w0.open), h.w0.phase.start, prepare)
            case Err(_) => Calls(h.inputs) == 0
            case Ok(o) => Calls(h.inputs) <= Max(1, Total(h.w0.task, resource) - o.nextOffset)
                                             * (h.w0.task.maxChunkRetries + 1)
  {
    hide Replay, FitsAll, CallsLeft, StepsLeft, WorkerOk, Prepare;
    CallsFromBegin(h.w0, h.file0, h.inputs, resource);
    CallsLeftNonNegative(h.w, h.file, resource);
  }

  lemma FreshRun(w: Worker, file: Option<seq<byte>>, resource: seq<byte>)
    requires w.phase.Preparing? && 1 <= w.task.chunkSize && !w.open
    requires w.task.direction == Download ==> TaskIo(file, false).Content() <= resource
    ensures IsRun(History(w, file, [], w, file, []), resource) && Calls([]) == 0
    ensures WorkerOk(w, file, resource)
  {}

  lemma OverFacts(h: History, resource: seq<byte>)
    requires h.w.phase.Over? && WorkerOk(h.w, h.file, resource) && LogOk(h.w, h.log)
    requires CopiedOk(h.w, h.file, h.log, resource)
    ensures |h.log| > 0
    ensures h.w.task.direction == Download ==>
              && TaskIo(h.file, h.w.open).Content() <= resource
              && (h.log[|h.log| - 1].Completed? ==> TaskIo(h.file, h.w.open).Content() == resource)
  {}
}
