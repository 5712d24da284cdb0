/**
 A transfer worker as a state machine: one step per observation of the outside world. The system
 model interleaves these steps; `RunGroup.dfy` proves that the worker's loops are runs of this machine.
 */
module Worker {
  import opened Basics
  import opened HttpClient

  datatype Phase =
    | Preparing(start: u64)
    | Looping(offset: u64, total: u64)                    // top of the chunk loop
    | Trying(offset: u64, total: u64, attempt: nat)       // top of the retry loop
    | Sending(offset: u64, total: u64, attempt: nat)      // a chunk is being transferred
    | Waiting(offset: u64, total: u64, attempt: nat)      // between two attempts
    | Got(outcome: ChunkOutcome, total: u64)              // a chunk succeeded
    | Finishing(total: u64)                               // the last progress has been reported
    | Over

  /** `accepted` is what the server has taken: the slices of successful upload chunks. */
  datatype Worker = Worker(key: Key, task: InnerTask, phase: Phase, open: bool, accepted: seq<seq<byte>>)

  /** What a worker can observe next. */
  datatype Input =
    | Prepared(prepare: PrepareEnv)
    | Polled(cancelled: bool)
    | Attempted(chunk: ChunkEnv)
    | Woke
    | Interrupted
    | Reported
    | Finished
    | Panicked

  function NewWorker(key: Key, task: InnerTask, start: u64): Worker {
    Worker(key, task, Preparing(start), false, [])
  }

  /** Which observations a phase waits for. */
  predicate Fits(w: Worker, i: Input) {
    match i
    case Prepared(_) => w.phase.Preparing?
    case Polled(_) => w.phase.Looping? || w.phase.Trying?
    case Attempted(_) => w.phase.Sending?
    case Woke => w.phase.Waiting?
    case Interrupted => w.phase.Waiting?
    case Reported => w.phase.Got?
    case Finished => w.phase.Finishing?
    case Panicked => !w.phase.Over?
  }

  /** A worker only sees a cancelled token when its token is cancelled. */
  predicate Sees(i: Input, cancelled: bool) {
    match i
    case Polled(c) => c == cancelled
    case Interrupted => cancelled
    case _ => true
  }

  function Stopped(w: Worker, e: WorkerEvent): (Worker, seq<WorkerEvent>) {
    (w.(phase := Over), [e])
  }

  /** The failed attempt is tried again, or the worker gives up. */
  function AfterError(w: Worker, e: ErrorCode): (Worker, seq<WorkerEvent>)
    requires w.phase.Sending?
  {
    if !IsRetryable(e) || w.phase.attempt >= w.task.maxChunkRetries then Stopped(w, WorkerEvent.Failed(w.key, e))
    else (w.(phase := Waiting(w.phase.offset, w.phase.total, w.phase.attempt)), [])
  }

  /** One step: the worker, the local file and the events sent. */
  function Next(w: Worker, file: Option<seq<byte>>, i: Input): (Worker, Option<seq<byte>>, seq<WorkerEvent>)
    requires Fits(w, i)
  {
    match i
    case Prepared(env) =>
      (match Prepare(w.task, TaskIo(file, w.open), w.phase.start, env)
       case Err(e) => var (w', ev) := Stopped(w, WorkerEvent.Failed(w.key, e)); (w', file, ev)
       case Ok(o) =>
         var total := if o.totalSize > 0 then o.totalSize else w.task.totalSize;
         (w.(phase := Looping(o.nextOffset, total)), file, []))
    case Polled(cancelled) =>
      if cancelled then
        var (w', ev) := Stopped(w, WorkerEvent.Canceled(w.key)); (w', file, ev)
      else if w.phase.Looping? then (w.(phase := Trying(w.phase.offset, w.phase.total, 0)), file, [])
      else (w.(phase := Sending(w.phase.offset, w.phase.total, w.phase.attempt)), file, [])
    case Attempted(env) =>
      var io := TaskIo(file, w.open);
      (match TransferChunk(w.task, io, w.phase.offset, w.phase.total, env)
       case (io', Err(e)) => var (w', ev) := AfterError(w.(open := io'.open), e); (w', io'.file, ev)
       case (io', Ok(o)) =>
         var total := if o.totalSize > 0 then o.totalSize else w.phase.total;
         (w.(phase := Got(o, total), open := io'.open,
             accepted := w.accepted + Slices(w.task, io, w.phase.offset, env)), io'.file, []))
    case Woke => (w.(phase := Trying(w.phase.offset, w.phase.total, w.phase.attempt + 1)), file, [])
    case Interrupted => var (w', ev) := Stopped(w, WorkerEvent.Canceled(w.key)); (w', file, ev)
    case Reported =>
      var o := w.phase.outcome;
      (w.(phase := if o.done then Finishing(w.phase.total) else Looping(o.nextOffset, w.phase.total)), file,
       [Progress(w.key, o.nextOffset, w.phase.total)])
    case Finished => var (w', ev) := Stopped(w, Completed(w.key, w.phase.total)); (w', file, ev)
    case Panicked => var (w', ev) := Stopped(w, WorkerEvent.Failed(w.key, Unknown)); (w', file, ev)
  }

  // ---- runs of one worker ----

  ghost predicate FitsAll(w: Worker, file: Option<seq<byte>>, inputs: seq<Input>)
    decreases |inputs|, 0
  {
    inputs == [] ||
    var before := inputs[..|inputs| - 1];
    FitsAll(w, file, before) && Fits(Replay(w, file, before).0, inputs[|inputs| - 1])
  }

  /** Where a worker is after some observations, what the file is then, and all events it has sent. */
  ghost function Replay(w: Worker, file: Option<seq<byte>>, inputs: seq<Input>)
    : (Worker, Option<seq<byte>>, seq<WorkerEvent>)
    requires FitsAll(w, file, inputs)
    decreases |inputs|, 1
  {
    if inputs == [] then (w, file, [])
    else
      var (w1, file1, log) := Replay(w, file, inputs[..|inputs| - 1]);
      var (w2, file2, ev) := Next(w1, file1, inputs[|inputs| - 1]);
      (w2, file2, log + ev)
  }
}
