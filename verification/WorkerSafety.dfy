/** What holds at every step of a worker, whatever it observes from an honest server. */
module WorkerSafety {
  import opened Basics
  import opened HttpClient
  import opened Worker
  import CR = ContentRange

  /** The size of what a task transfers. */
  function Total(t: InnerTask, resource: seq<byte>): nat {
    if IsDownload(t) then |resource| else t.totalSize
  }

  /** A phase in which the worker stands at `offset` of its chunk loop. */
  predicate InLoop(p: Phase) {
    p.Looping? || p.Trying? || p.Sending? || p.Waiting?
  }

  ghost predicate HonestInput(i: Input, resource: seq<byte>) {
    match i
    case Prepared(env) => HonestHead(env.head, resource)
    case Attempted(env) => HonestGet(env.get, resource)
    case _ => true
  }

  /** The file of a download, against the resource it is a copy of. */
  ghost predicate DownloadOk(w: Worker, file: Option<seq<byte>>, resource: seq<byte>) {
    var io := TaskIo(file, w.open);
    && (w.open ==> file.Some?)
    && io.Content() <= resource
    && (InLoop(w.phase) ==> w.phase.total == |resource| && AtEnd(io, w.phase.offset, resource))
    && (w.phase.Got? ==>
          && w.phase.total == |resource|
          && AtEnd(io, w.phase.outcome.nextOffset, resource)
          && (w.phase.outcome.done <==> w.phase.outcome.nextOffset == |resource|))
    && (w.phase.Finishing? ==> w.phase.total == |resource| && io.Content() == resource)
  }

  ghost predicate UploadOk(w: Worker) {
    && (InLoop(w.phase) ==> w.phase.offset <= w.phase.total == w.task.totalSize)
    && (w.phase.Got? ==>
          && w.phase.outcome.nextOffset <= w.phase.total == w.task.totalSize
          && (w.phase.outcome.done <==> w.phase.outcome.nextOffset == w.phase.total))
    && (w.phase.Finishing? ==> w.phase.total == w.task.totalSize)
  }

  ghost predicate WorkerOk(w: Worker, file: Option<seq<byte>>, resource: seq<byte>) {
    && 1 <= w.task.chunkSize
    && (w.phase.Trying? || w.phase.Sending? ==> w.phase.attempt <= w.task.maxChunkRetries)
    && (w.phase.Waiting? ==> w.phase.attempt < w.task.maxChunkRetries)
    && (match w.task.direction
        case Upload => UploadOk(w)
        case Download => DownloadOk(w, file, resource))
  }

  lemma UploadChunkResult(task: InnerTask, io: TaskIo, offset: u64, env: ChunkEnv)
    requires 1 <= task.chunkSize && offset <= task.totalSize
    ensures var (io', r) := UploadChunk(task, io, offset, env);
            && io'.file == io.file
            && (r.Ok? ==>
                  && r.value.totalSize == task.totalSize
                  && (if offset < task.totalSize then offset < r.value.nextOffset <= task.totalSize
                      else r.value.nextOffset == offset)
                  && (r.value.done <==> r.value.nextOffset == task.totalSize))
  {}

  /** An attempt of either direction: the file stays right, and success makes progress. */
  lemma AttemptKeepsOk(w: Worker, file: Option<seq<byte>>, env: ChunkEnv, resource: seq<byte>)
    requires w.phase.Sending? && WorkerOk(w, file, resource) && HonestGet(env.get, resource)
    ensures var (w', file', _) := Next(w, file, Attempted(env));
            && WorkerOk(w', file', resource)
            && (w'.phase.Got? ==>
                  || w.phase.offset < w'.phase.outcome.nextOffset
                  || (w'.phase.outcome.done && w.phase.offset == w'.phase.outcome.nextOffset == w.phase.total))
  {
    hide Next, HonestGet, HonestAt, WorkerOk;
    HonestAnywhere(env.get, w.phase.offset, resource);
    AttemptAtKeepsOk(w, file, env, resource);
  }

  lemma AttemptAtKeepsOk(w: Worker, file: Option<seq<byte>>, env: ChunkEnv, resource: seq<byte>)
    requires w.phase.Sending? && WorkerOk(w, file, resource) && HonestAt(env.get, w.phase.offset, resource)
    ensures var (w', file', _) := Next(w, file, Attempted(env));
            && WorkerOk(w', file', resource)
            && (w'.phase.Got? ==>
                  || w.phase.offset < w'.phase.outcome.nextOffset
                  || (w'.phase.outcome.done && w.phase.offset == w'.phase.outcome.nextOffset == w.phase.total))
  {
    hide UploadChunk, DownloadChunk, HonestAt, Slices;
    var io := TaskIo(file, w.open);
    if w.task.direction == Upload {
      UploadChunkResult(w.task, io, w.phase.offset, env);
    } else {
      ChunkExtendsPrefix(io, w.phase.offset, w.phase.total, env, resource);
    }
  }

  lemma PrepareKeepsOk(w: Worker, file: Option<seq<byte>>, env: PrepareEnv, resource: seq<byte>)
    requires w.phase.Preparing? && WorkerOk(w, file, resource) && HonestHead(env.head, resource)
    ensures var (w', file', _) := Next(w, file, Prepared(env)); WorkerOk(w', file', resource)
  {
    var io := TaskIo(file, w.open);
    if w.task.direction == Download {
      assert io.Content() == resource[..|io.Content()|];
    }
  }

  /** What is honest for the step that a worker is about to make. */
  ghost predicate HonestFor(w: Worker, i: Input, resource: seq<byte>) {
    match i
    case Prepared(env) => HonestHead(env.head, resource)
    case Attempted(env) => w.phase.Sending? ==> HonestAt(env.get, w.phase.offset, resource)
    case _ => true
  }

  lemma StepForKeepsOk(w: Worker, file: Option<seq<byte>>, i: Input, resource: seq<byte>)
    requires Fits(w, i) && HonestFor(w, i, resource) && WorkerOk(w, file, resource)
    ensures var (w', file', _) := Next(w, file, i); WorkerOk(w', file', resource)
  {
    hide UploadChunk, DownloadChunk, HonestAt, HonestHead, Prepare;
    match i
    case Prepared(env) => PrepareKeepsOk(w, file, env, resource);
    case Attempted(env) => AttemptAtKeepsOk(w, file, env, resource);
    case _ =>
  }

  /** Every step of a worker keeps the file a prefix of the resource and the loop at the file's end. */
  lemma StepKeepsOk(w: Worker, file: Option<seq<byte>>, i: Input, resource: seq<byte>)
    requires Fits(w, i) && HonestInput(i, resource) && WorkerOk(w, file, resource)
    ensures var (w', file', _) := Next(w, file, i); WorkerOk(w', file', resource)
  {
    hide Next, Fits, WorkerOk, HonestInput, HonestFor;
    HonestForStep(w, i, resource);
    StepForKeepsOk(w, file, i, resource);
  }

  /** An upload never writes its source; a worker that is over never touches its file again. */
  lemma WhoWrites(w: Worker, file: Option<seq<byte>>, i: Input)
    requires Fits(w, i)
    ensures var (w', file', _) := Next(w, file, i);
            && (file' != file ==> w.task.direction == Download && w.phase.Sending?)
            && w'.task == w.task && w'.key == w.key
  {
    hide DownloadChunk, Slices;
  }

  // ---- events ----

  predicate EndsWorker(e: WorkerEvent) {
    !e.Progress?
  }

  /** Progress offsets strictly increase. */
  ghost predicate Increasing(log: seq<WorkerEvent>) {
    forall i, j :: 0 <= i < j < |log| && log[i].Progress? && log[j].Progress? ==> log[i].nextOffset < log[j].nextOffset
  }

  /** Everything reported so far is at most `limit`. */
  ghost predicate UpTo(log: seq<WorkerEvent>, limit: int) {
    forall i :: 0 <= i < |log| && log[i].Progress? ==> log[i].nextOffset <= limit
  }

  ghost predicate AllProgress(log: seq<WorkerEvent>) {
    forall i :: 0 <= i < |log| ==> log[i].Progress?
  }

  /** One worker's events: progress reports, then, once it is over, exactly one terminal event. */
  ghost predicate LogOk(w: Worker, log: seq<WorkerEvent>) {
    && (forall i :: 0 <= i < |log| ==> log[i].key == w.key)
    && Increasing(log)
    && (if w.phase.Over? then |log| > 0 && AllProgress(log[..|log| - 1]) && EndsWorker(log[|log| - 1])
        else AllProgress(log))
    && (w.phase.Preparing? ==> log == [])
    && (InLoop(w.phase) ==> UpTo(log, w.phase.offset) && (log != [] ==> w.phase.offset < w.phase.total))
    && (w.phase.Got? ==>
          && UpTo(log, w.phase.outcome.nextOffset - 1)
          && (w.phase.outcome.done || w.phase.outcome.nextOffset < w.phase.total))
  }

  lemma ReportKeepsLog(w: Worker, log: seq<WorkerEvent>, e: WorkerEvent)
    requires LogOk(w, log) && w.phase.Got? && e == Progress(w.key, w.phase.outcome.nextOffset, w.phase.total)
    ensures Increasing(log + [e]) && UpTo(log + [e], w.phase.outcome.nextOffset) && AllProgress(log + [e])
    ensures forall i :: 0 <= i < |log + [e]| ==> (log + [e])[i].key == w.key
  {
    hide InLoop;
  }

  lemma RaiseLimit(log: seq<WorkerEvent>, low: int, high: int)
    requires UpTo(log, low) && (log != [] ==> low <= high)
    ensures UpTo(log, high)
  {}

  lemma NothingReported()
    ensures forall limit: int {:trigger UpTo([], limit)} :: UpTo([], limit)
  {}

  lemma StopKeepsLog(w: Worker, log: seq<WorkerEvent>, e: WorkerEvent)
    requires LogOk(w, log) && !w.phase.Over? && EndsWorker(e) && e.key == w.key
    ensures LogOk(w.(phase := Over), log + [e])
  {
    assert (log + [e])[..|log|] == log;
  }

  lemma HonestForStep(w: Worker, i: Input, resource: seq<byte>)
    requires HonestInput(i, resource)
    ensures HonestFor(w, i, resource)
  {
    hide HonestGet, HonestAt, HonestHead;
    if i.Attempted? && w.phase.Sending? {
      HonestAnywhere(i.chunk.get, w.phase.offset, resource);
    }
  }

  lemma StepKeepsLog(w: Worker, file: Option<seq<byte>>, i: Input, resource: seq<byte>, log: seq<WorkerEvent>)
    requires Fits(w, i) && HonestInput(i, resource) && WorkerOk(w, file, resource) && LogOk(w, log)
    ensures var (w', _, ev) := Next(w, file, i); LogOk(w', log + ev)
  {
    hide Next, Fits, WorkerOk, LogOk, HonestInput, HonestFor;
    HonestForStep(w, i, resource);
    StepForKeepsLog(w, file, i, resource, log);
  }

  lemma StepForKeepsLog(w: Worker, file: Option<seq<byte>>, i: Input, resource: seq<byte>, log: seq<WorkerEvent>)
    requires Fits(w, i) && HonestFor(w, i, resource) && WorkerOk(w, file, resource) && LogOk(w, log)
    ensures var (w', _, ev) := Next(w, file, i); LogOk(w', log + ev)
  {
    hide UploadChunk, DownloadChunk, HonestAt, HonestHead, Prepare, Increasing, UpTo, AllProgress;
    var (w', file', ev) := Next(w, file, i);
    assert log + [] == log;
    if ev != [] && EndsWorker(ev[0]) {
      StopKeepsLog(w, log, ev[0]);
      assert LogOk(w.(phase := Over), log + ev);
    } else if i.Reported? {
      ReportKeepsLog(w, log, ev[0]);
    } else if i.Attempted? {
      AttemptAtKeepsOk(w, file, i.chunk, resource);
      StepForKeepsOk(w, file, i, resource);
      if w'.phase.Got? {
        RaiseLimit(log, w.phase.offset, w'.phase.outcome.nextOffset - 1);
      }
    } else if i.Prepared? {
      NothingReported();
    }
  }

  /** A download that has reported `Completed` has an exact copy of the resource. */
  ghost predicate CopiedOk(w: Worker, file: Option<seq<byte>>, log: seq<WorkerEvent>, resource: seq<byte>) {
    w.task.direction == Download && w.phase.Over? && log != [] && log[|log| - 1].Completed? ==>
      TaskIo(file, w.open).Content() == resource
  }

  lemma StepKeepsCopied(w: Worker, file: Option<seq<byte>>, i: Input, resource: seq<byte>, log: seq<WorkerEvent>)
    requires Fits(w, i) && WorkerOk(w, file, resource) && LogOk(w, log)
    ensures var (w', file', ev) := Next(w, file, i); CopiedOk(w', file', log + ev, resource)
  {
    hide UploadChunk, DownloadChunk, HonestGet, HonestHead, Prepare, Increasing, UpTo;
    var (w', file', ev) := Next(w, file, i);
    if w'.phase.Over? {
      assert (log + ev)[|log|] == ev[0];
    }
  }

  /** What a worker reports as the total is the size of what the task transfers, and nothing it reports is beyond. */
  ghost predicate TotalsOk(t: InnerTask, log: seq<WorkerEvent>, resource: seq<byte>) {
    forall i :: 0 <= i < |log| ==>
      && (log[i].Progress? ==> log[i].nextOffset <= log[i].totalSize == Total(t, resource))
      && (log[i].Completed? ==> log[i].totalSize == Total(t, resource))
  }

  lemma StepKeepsTotals(w: Worker, file: Option<seq<byte>>, i: Input, resource: seq<byte>, log: seq<WorkerEvent>)
    requires Fits(w, i) && WorkerOk(w, file, resource) && TotalsOk(w.task, log, resource)
    ensures var (_, _, ev) := Next(w, file, i); TotalsOk(w.task, log + ev, resource)
  {
    hide Prepare, TransferChunk, Slices;
  }

  lemma ClientErrors(task: InnerTask, io: TaskIo, start: u64, offset: u64, total: u64, prepare: PrepareEnv,
                     chunk: ChunkEnv)
    ensures Prepare(task, io, start, prepare) != Err(Unknown)
    ensures TransferChunk(task, io, offset, total, chunk).1 != Err(Unknown)
  {
    hide CR.ParseContentRange, WriteAt, Carries, BreaksOff;
    ReplyMeaning(chunk.get, offset, total);
  }

  /** `Failed(Unknown)` stands for a panic, whatever the worker was doing, and for nothing else. */
  lemma PanicIsUnknown(w: Worker, file: Option<seq<byte>>, i: Input)
    requires Fits(w, i)
    ensures var (w', file', ev) := Next(w, file, i);
            && (WorkerEvent.Failed(w.key, Unknown) in ev <==> i.Panicked?)
            && (i.Panicked? ==> w'.phase.Over? && file' == file && |ev| == 1)
  {
    hide Prepare, TransferChunk, Slices;
    if i.Prepared? {
      ClientErrors(w.task, TaskIo(file, w.open), w.phase.start, 0, 0, i.prepare,
                   ChunkEnv(NoFault, NoResponse, NoAnswer));
    } else if i.Attempted? {
      ClientErrors(w.task, TaskIo(file, w.open), 0, w.phase.offset, w.phase.total,
                   PrepareEnv(NoFault, NoHead, NoAnswer),
                   i.chunk);
    }
  }
}
