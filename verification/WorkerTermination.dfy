/** A worker makes a bounded number of transfer calls and takes a bounded number of steps. */
module WorkerTermination {
  import opened Basics
  import opened Arithmetic
  import opened HttpClient
  import opened Worker
  import opened WorkerSafety

  /** Chunks still to come: every one moves at least a byte, and an empty rest still takes one call. */
  function Chunks(offset: int, total: int): int {
    Max(1, total - offset)
  }

  /** Where the chunk loop will begin, at the latest, and what it will take as the total. */
  function Begin(w: Worker, file: Option<seq<byte>>): int {
    if w.task.direction == Upload then (if w.phase.Preparing? then Min(w.phase.start, w.task.totalSize) else 0)
    else |TaskIo(file, w.open).Content()|
  }

  function CallsLeft(w: Worker, file: Option<seq<byte>>, resource: seq<byte>): int {
    var tries := w.task.maxChunkRetries + 1;
    match w.phase
    case Preparing(_) => Chunks(Begin(w, file), Total(w.task, resource)) * tries
    case Looping(offset, total) => Chunks(offset, total) * tries
    case Trying(offset, total, attempt) => (Chunks(offset, total) - 1) * tries + tries - attempt
    case Sending(offset, total, attempt) => (Chunks(offset, total) - 1) * tries + tries - attempt
    case Waiting(offset, total, attempt) => (Chunks(offset, total) - 1) * tries + tries - attempt - 1
    case Got(outcome, total) => if outcome.done then 0 else Chunks(outcome.nextOffset, total) * tries
    case Finishing(_) => 0
    case Over => 0
  }

  function Rank(p: Phase): nat {
    match p
    case Preparing(_) => 3
    case Looping(_, _) => 2
    case Trying(_, _, _) => 1
    case Sending(_, _, _) => 0
    case Waiting(_, _, _) => 2
    case Got(_, _) => 3
    case Finishing(_) => 2
    case Over => 0
  }

  /** How many steps a worker can still take: the lexicographic measure (calls, rank), as one number. */
  function StepsLeft(w: Worker, file: Option<seq<byte>>, resource: seq<byte>): int {
    4 * CallsLeft(w, file, resource) + Rank(w.phase) + if w.phase.Over? then 0 else 1
  }

  lemma CallsLeftNonNegative(w: Worker, file: Option<seq<byte>>, resource: seq<byte>)
    requires WorkerOk(w, file, resource)
    ensures 0 <= CallsLeft(w, file, resource)
  {
    var tries := w.task.maxChunkRetries + 1;
    match w.phase
    case Preparing(_) => MulMonotone(0, Chunks(Begin(w, file), Total(w.task, resource)), tries);
    case Looping(offset, total) => MulMonotone(0, Chunks(offset, total), tries);
    case Trying(offset, total, _) => MulMonotone(0, Chunks(offset, total) - 1, tries);
    case Sending(offset, total, _) => MulMonotone(0, Chunks(offset, total) - 1, tries);
    case Waiting(offset, total, _) => MulMonotone(0, Chunks(offset, total) - 1, tries);
    case Got(outcome, total) => MulMonotone(0, Chunks(outcome.nextOffset, total), tries);
    case _ =>
  }

  function CallOf(i: Input): nat {
    if i.Attempted? then 1 else 0
  }

  lemma PrepareUsesCalls(w: Worker, file: Option<seq<byte>>, env: PrepareEnv, resource: seq<byte>)
    requires w.phase.Preparing? && WorkerOk(w, file, resource) && HonestHead(env.head, resource)
    ensures var (w', file', _) := Next(w, file, Prepared(env));
            CallsLeft(w', file', resource) <= CallsLeft(w, file, resource)
  {
    CallsLeftNonNegative(w, file, resource);
    var (w', _, _) := Next(w, file, Prepared(env));
    if w'.phase.Looping? {
      MulMonotone(Chunks(w'.phase.offset, w'.phase.total), Chunks(Begin(w, file), Total(w.task, resource)),
                  w.task.maxChunkRetries + 1);
    }
  }

  lemma AttemptUsesACall(w: Worker, file: Option<seq<byte>>, env: ChunkEnv, resource: seq<byte>)
    requires w.phase.Sending? && WorkerOk(w, file, resource) && HonestGet(env.get, resource)
    ensures var (w', file', _) := Next(w, file, Attempted(env));
            CallsLeft(w', file', resource) + 1 <= CallsLeft(w, file, resource)
  {
    hide TransferChunk, HonestGet, Slices;
    AttemptKeepsOk(w, file, env, resource);
    AttemptKeepsTotal(w, file, env, resource);
    var (w', file', _) := Next(w, file, Attempted(env));
    var tries := w.task.maxChunkRetries + 1;
    MulMonotone(0, Chunks(w.phase.offset, w.phase.total) - 1, tries);
    if w'.phase.Got? && !w'.phase.outcome.done {
      MulMonotone(Chunks(w'.phase.outcome.nextOffset, w'.phase.total), Chunks(w.phase.offset, w.phase.total) - 1,
                  tries);
    }
  }

  lemma AttemptKeepsTotal(w: Worker, file: Option<seq<byte>>, env: ChunkEnv, resource: seq<byte>)
    requires w.phase.Sending? && WorkerOk(w, file, resource) && HonestGet(env.get, resource)
    ensures var (w', _, _) := Next(w, file, Attempted(env));
            w'.phase.Got? ==>
              w'.phase.total == w.phase.total && (w'.phase.outcome.done || w'.phase.outcome.nextOffset < w'.phase.total)
  {
    hide TransferChunk, HonestGet, Slices;
    StepKeepsOk(w, file, Attempted(env), resource);
  }

  /** Every step takes something from the measure, and a transfer call takes a call. */
  lemma StepDecreases(w: Worker, file: Option<seq<byte>>, i: Input, resource: seq<byte>)
    requires Fits(w, i) && HonestInput(i, resource) && WorkerOk(w, file, resource)
    ensures var (w', file', _) := Next(w, file, i);
            && CallsLeft(w', file', resource) + CallOf(i) <= CallsLeft(w, file, resource)
            && StepsLeft(w', file', resource) < StepsLeft(w, file, resource)
  {
    hide TransferChunk, Prepare, HonestGet, HonestHead, Slices;
    CallsLeftNonNegative(w, file, resource);
    match i
    case Prepared(env) => PrepareUsesCalls(w, file, env, resource);
    case Attempted(env) => AttemptUsesACall(w, file, env, resource);
    case Polled(_) =>
      if w.phase.Looping? {
        ChunksSplit(w.phase.offset, w.phase.total, w.task.maxChunkRetries + 1);
      }
    case _ =>
  }

  lemma ChunksSplit(offset: int, total: int, tries: int)
    ensures (Chunks(offset, total) - 1) * tries + tries == Chunks(offset, total) * tries
  {}

  // ---- whole runs ----

  ghost predicate HonestAll(inputs: seq<Input>, resource: seq<byte>) {
    forall i :: 0 <= i < |inputs| ==> HonestInput(inputs[i], resource)
  }

  function Calls(inputs: seq<Input>): nat {
    if inputs == [] then 0 else Calls(inputs[..|inputs| - 1]) + CallOf(inputs[|inputs| - 1])
  }

  /**
   Any run of a worker against an honest server: its file and log are right at every moment, and it
   makes at most `max(1, total - start) * (max_chunk_retries + 1)` transfer calls.
   */
  lemma {:induction false} RunIsSafeAndBounded(w: Worker, file: Option<seq<byte>>, inputs: seq<Input>,
                                               resource: seq<byte>)
    requires WorkerOk(w, file, resource) && LogOk(w, []) && HonestAll(inputs, resource) && FitsAll(w, file, inputs)
    ensures var (w', file', log) := Replay(w, file, inputs);
            && WorkerOk(w', file', resource) && LogOk(w', log) && CopiedOk(w', file', log, resource)
            && CallsLeft(w', file', resource) + Calls(inputs) <= CallsLeft(w, file, resource)
            && StepsLeft(w', file', resource) + |inputs| <= StepsLeft(w, file, resource)
    decreases |inputs|
  {
    hide WorkerOk, LogOk, Next, CallsLeft, StepsLeft, HonestInput, Fits, CopiedOk;
    if inputs == [] {
      FreshCopy(w, file, resource);
    } else {
      var n := |inputs| - 1;
      RunIsSafeAndBounded(w, file, inputs[..n], resource);
      var (w1, file1, log) := Replay(w, file, inputs[..n]);
      StepKeepsOk(w1, file1, inputs[n], resource);
      StepKeepsLog(w1, file1, inputs[n], resource, log);
      StepDecreases(w1, file1, inputs[n], resource);
      StepKeepsCopied(w1, file1, inputs[n], resource, log);
    }
  }

  lemma FreshCopy(w: Worker, file: Option<seq<byte>>, resource: seq<byte>)
    ensures CopiedOk(w, file, [], resource)
  {}

  /** What prepare made of the first observation, if that was a prepare that succeeded. */
  function Begun(w: Worker, file: Option<seq<byte>>, inputs: seq<Input>): Option<nat>
    requires w.phase.Preparing?
  {
    if inputs == [] || !inputs[0].Prepared? then None
    else
      match Prepare(w.task, TaskIo(file, w.open), w.phase.start, inputs[0].prepare)
      case Err(_) => None
      case Ok(o) => Some(o.nextOffset)
  }

  /** The calls of a run, counted from where prepare let it begin. */
  lemma {:induction false} CallsFromBegin(w: Worker, file: Option<seq<byte>>, inputs: seq<Input>, resource: seq<byte>)
    requires w.phase.Preparing? && WorkerOk(w, file, resource) && HonestAll(inputs, resource)
    requires FitsAll(w, file, inputs)
    requires inputs != []
    ensures var (w', file', _) := Replay(w, file, inputs);
            && WorkerOk(w', file', resource)
            && (if Begun(w, file, inputs).None? then w'.phase.Over? && Calls(inputs) == 0
                else CallsLeft(w', file', resource) + Calls(inputs)
                     <= Chunks(Begun(w, file, inputs).value, Total(w.task, resource)) * (w.task.maxChunkRetries + 1))
    decreases |inputs|
  {
    hide WorkerOk, Next, CallsLeft, HonestInput, Prepare, Chunks;
    var n := |inputs| - 1;
    var before := inputs[..n];
    if n == 0 {
      assert before == [] && inputs == [inputs[0]];
      assert HonestInput(inputs[0], resource);
      StepKeepsOk(w, file, inputs[0], resource);
      FirstStepCalls(w, file, inputs[0], resource);
    } else {
      assert before[0] == inputs[0];
      CallsFromBegin(w, file, before, resource);
      var (w1, file1, _) := Replay(w, file, before);
      OverEnds(w1, inputs[n]);
      StepKeepsOk(w1, file1, inputs[n], resource);
      StepDecreases(w1, file1, inputs[n], resource);
    }
  }

  lemma OverEnds(w: Worker, i: Input)
    ensures w.phase.Over? ==> !Fits(w, i)
  {}

  lemma FirstStepCalls(w: Worker, file: Option<seq<byte>>, i: Input, resource: seq<byte>)
    requires w.phase.Preparing? && WorkerOk(w, file, resource) && Fits(w, i) && HonestInput(i, resource)
    ensures var (w', file', _) := Next(w, file, i);
            && CallOf(i) == 0
            && (if Begun(w, file, [i]).None? then w'.phase.Over?
                else CallsLeft(w', file', resource)
                     == Chunks(Begun(w, file, [i]).value, Total(w.task, resource)) * (w.task.maxChunkRetries + 1))
  {}

  /**
   A fresh worker, whatever it observes: at most this many steps and, counted from where prepare lets it begin,
   transfer calls; progress that only grows, and never more than one terminal event. A completed download has
   copied the resource.
   */
  lemma FreshWorkerRuns(key: Key, task: InnerTask, start: u64, file: Option<seq<byte>>, inputs: seq<Input>,
                        resource: seq<byte>)
    requires 1 <= task.chunkSize && HonestAll(inputs, resource)
    requires task.direction == Download ==> TaskIo(file, false).Content() <= resource
    requires FitsAll(NewWorker(key, task, start), file, inputs)
    ensures var w0 := NewWorker(key, task, start);
            var (w, file', log) := Replay(w0, file, inputs);
            && LogOk(w, log)
            && (match Begun(w0, file, inputs)
                case None => Calls(inputs) == 0
                case Some(begin) =>
                  Calls(inputs) <= Max(1, Total(w0.task, resource) - begin) * (task.maxChunkRetries + 1))
            && |inputs| <= StepsLeft(w0, file, resource)
            && (task.direction == Download ==> TaskIo(file', false).Content() <= resource)
            && (task.direction == Download && log != [] && log[|log| - 1].Completed? ==>
                  TaskIo(file', false).Content() == resource)
  {
    hide LogOk, FitsAll, Replay, StepsLeft;
    var w0 := NewWorker(key, task, start);
    FreshLog(w0);
    RunIsSafeAndBounded(w0, file, inputs, resource);
    var (w, file', _) := Replay(w0, file, inputs);
    CallsLeftNonNegative(w, file', resource);
    ReplayKeepsTask(w0, file, inputs);
    CompletedIsOver(w, Replay(w0, file, inputs).2);
    StepsLeftNonNegative(w, file', resource);
    if inputs != [] {
      CallsFromBegin(w0, file, inputs, resource);
    }
  }

  lemma StepsLeftNonNegative(w: Worker, file: Option<seq<byte>>, resource: seq<byte>)
    requires 0 <= CallsLeft(w, file, resource)
    ensures 0 <= StepsLeft(w, file, resource)
  {}

  lemma CompletedIsOver(w: Worker, log: seq<WorkerEvent>)
    requires LogOk(w, log)
    ensures log != [] && log[|log| - 1].Completed? ==> w.phase.Over?
  {}

  lemma FreshLog(w: Worker)
    requires w.phase.Preparing?
    ensures LogOk(w, [])
  {}

  lemma {:induction false} ReplayKeepsTask(w: Worker, file: Option<seq<byte>>, inputs: seq<Input>)
    requires FitsAll(w, file, inputs)
    ensures Replay(w, file, inputs).0.task == w.task && Replay(w, file, inputs).0.key == w.key
    decreases |inputs|
  {
    hide Next;
    if inputs != [] {
      var n := |inputs| - 1;
      ReplayKeepsTask(w, file, inputs[..n]);
      var (w1, file1, _) := Replay(w, file, inputs[..n]);
      WhoWrites(w1, file1, inputs[n]);
    }
  }
}
