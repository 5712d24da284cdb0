/** The successful chunks of an upload cut the source into consecutive slices. */
module UploadTiling {
  import opened Basics
  import opened Arithmetic
  import opened HttpClient
  import opened ChunkMeaning
  import opened Worker
  import opened WorkerSafety
  import opened WorkerTermination

  /** Where chunk `n` of an upload that begins at `start` begins. */
  function Pos(n: int, start: int, chunk: int, total: int): int {
    Min(start + n * chunk, total)
  }

  /** `slices` are the consecutive chunks of `source` from `start`, none of them empty. */
  ghost predicate Tiles(slices: seq<seq<byte>>, source: seq<byte>, start: nat, chunk: nat, total: nat) {
    forall i :: 0 <= i < |slices| ==> IsChunk(slices[i], i, source, start, chunk, total)
  }

  ghost predicate IsChunk(slice: seq<byte>, i: nat, source: seq<byte>, start: nat, chunk: nat, total: nat) {
    && 0 <= Pos(i, start, chunk, total) < Pos(i + 1, start, chunk, total) <= |source|
    && slice == source[Pos(i, start, chunk, total)..Pos(i + 1, start, chunk, total)]
  }

  function Concat(slices: seq<seq<byte>>): seq<byte> {
    if slices == [] then [] else Concat(slices[..|slices| - 1]) + slices[|slices| - 1]
  }

  /** The server names a finished file only for the chunk that reaches the end. */
  ghost predicate NoEarlyId(w: Worker, i: Input) {
    i.Attempted? && w.phase.Sending? && w.phase.offset <= w.task.totalSize && i.chunk.post.Answer?
    && i.chunk.post.info.Some? && i.chunk.post.info.value.completed ==>
      w.phase.offset + ReadLength(w.task, w.phase.offset) >= w.task.totalSize
  }

  ghost predicate NoEarlyIds(w: Worker, file: Option<seq<byte>>, inputs: seq<Input>)
    requires FitsAll(w, file, inputs)
    decreases |inputs|
  {
    inputs == [] ||
    var before := inputs[..|inputs| - 1];
    NoEarlyIds(w, file, before) && NoEarlyId(Replay(w, file, before).0, inputs[|inputs| - 1])
  }

  /** The worker's offset is the number of accepted slices, counted in chunks. */
  ghost predicate TilingOk(w: Worker, source: seq<byte>, start: nat) {
    var pos := Pos(|w.accepted|, start, w.task.chunkSize, w.task.totalSize);
    && w.task.direction == Upload && start <= w.task.totalSize
    && UploadOk(w) && !w.phase.Preparing?
    && Tiles(w.accepted, source, start, w.task.chunkSize, w.task.totalSize)
    && (InLoop(w.phase) ==> w.phase.offset == pos)
    && (w.phase.Got? ==> w.phase.outcome.nextOffset == pos)
    && (w.phase.Finishing? ==> pos == w.task.totalSize)
  }

  lemma NextPos(n: nat, start: nat, chunk: nat, total: nat)
    requires start <= total
    ensures Pos(n + 1, start, chunk, total) == Min(Pos(n, start, chunk, total) + chunk, total)
  {
    assert (n + 1) * chunk == n * chunk + chunk;
  }

  lemma TilesSnoc(slices: seq<seq<byte>>, source: seq<byte>, start: nat, chunk: nat, total: nat, slice: seq<byte>)
    requires Tiles(slices, source, start, chunk, total)
    requires IsChunk(slice, |slices|, source, start, chunk, total)
    ensures Tiles(slices + [slice], source, start, chunk, total)
  {
    hide IsChunk;
  }

  /** A successful attempt either had nothing left to send, or sent exactly the next chunk. */
  lemma SuccessSendsNextChunk(task: InnerTask, io: TaskIo, offset: u64, env: ChunkEnv)
    requires task.direction == Upload && 1 <= task.chunkSize && offset <= task.totalSize
    requires UploadChunk(task, io, offset, env).1.Ok?
    requires env.post.Answer? && env.post.info.Some? && env.post.info.value.completed ==>
               offset + ReadLength(task, offset) >= task.totalSize
    ensures var end := Min(offset + task.chunkSize, task.totalSize);
            && UploadChunk(task, io, offset, env).1.value.nextOffset == end
            && (if offset == task.totalSize then Slices(task, io, offset, env) == []
                else end <= |io.Content()| && Slices(task, io, offset, env) == [io.Content()[offset..end]])
  {}

  lemma AttemptKeepsTiling(w: Worker, file: Option<seq<byte>>, env: ChunkEnv, start: nat)
    requires w.phase.Sending? && 1 <= w.task.chunkSize
    requires TilingOk(w, TaskIo(file, w.open).Content(), start) && NoEarlyId(w, Attempted(env))
    ensures var (w', _, _) := Next(w, file, Attempted(env)); TilingOk(w', TaskIo(file, w.open).Content(), start)
  {
    hide UploadChunk, Slices, Tiles, Pos;
    var io := TaskIo(file, w.open);
    var n := |w.accepted|;
    UploadChunkResult(w.task, io, w.phase.offset, env);
    NextPos(n, start, w.task.chunkSize, w.task.totalSize);
    if UploadChunk(w.task, io, w.phase.offset, env).1.Ok? {
      SuccessSendsNextChunk(w.task, io, w.phase.offset, env);
      if w.phase.offset < w.task.totalSize {
        TilesSnoc(w.accepted, io.Content(), start, w.task.chunkSize, w.task.totalSize,
                  Slices(w.task, io, w.phase.offset, env)[0]);
      } else {
        assert w.accepted + [] == w.accepted;
      }
    }
  }

  lemma StepKeepsTiling(w: Worker, file: Option<seq<byte>>, i: Input, start: nat)
    requires Fits(w, i) && 1 <= w.task.chunkSize && TilingOk(w, TaskIo(file, w.open).Content(), start)
    requires NoEarlyId(w, i)
    ensures var (w', file', _) := Next(w, file, i);
            TilingOk(w', TaskIo(file', w'.open).Content(), start) && file' == file
  {
    hide UploadChunk, DownloadChunk, Slices, Tiles, Pos;
    if i.Attempted? {
      AttemptKeepsTiling(w, file, i.chunk, start);
      UploadChunkResult(w.task, TaskIo(file, w.open), w.phase.offset, i.chunk);
    }
  }

  lemma {:induction false} TilesConcat(slices: seq<seq<byte>>, source: seq<byte>, start: nat, chunk: nat, total: nat)
    requires Tiles(slices, source, start, chunk, total) && start <= total
    ensures start <= Pos(|slices|, start, chunk, total)
    ensures (slices != [] ==> Pos(|slices|, start, chunk, total) <= |source|)
    ensures slices != [] ==> Concat(slices) == source[start..Pos(|slices|, start, chunk, total)]
  {
    if slices != [] {
      var n := |slices| - 1;
      assert Tiles(slices[..n], source, start, chunk, total);
      TilesConcat(slices[..n], source, start, chunk, total);
      var a, b := Pos(n, start, chunk, total), Pos(n + 1, start, chunk, total);
      assert IsChunk(slices[n], n, source, start, chunk, total);
      assert slices[n] == source[a..b];
      if n == 0 {
        assert a == start;
      } else {
        assert source[start..a] + source[a..b] == source[start..b];
      }
    }
  }

  /** The number of chunks of a whole upload. */
  function CeilDiv(a: nat, b: nat): nat
    requires 0 < b
  {
    (a + b - 1) / b
  }

  lemma CountChunks(n: nat, start: nat, chunk: nat, total: nat)
    requires 1 <= chunk && start <= total
    requires Pos(n, start, chunk, total) == total && (n > 0 ==> Pos(n - 1, start, chunk, total) < total)
    ensures n == CeilDiv(total - start, chunk)
  {
    var rest := total - start;
    assert rest <= n * chunk;
    if n > 0 {
      assert (n - 1) * chunk < rest;
      assert n * chunk <= rest + chunk - 1 < n * chunk + chunk;
      DivIs(rest + chunk - 1, chunk, n);
    } else {
      DivIs(chunk - 1, chunk, 0);
    }
  }

  lemma DivIs(a: nat, b: nat, q: nat)
    requires 0 < b && q * b <= a < q * b + b
    ensures a / b == q
  {
    var r := a - q * b;
    assert a == q * b + r && 0 <= r < b;
    if a / b < q {
      MulMonotone(a / b + 1, q, b);
    } else if a / b > q {
      MulMonotone(q + 1, a / b, b);
    }
  }

  /**
   Each accepted slice is reported once, with where it ends, before anything else happens. If there was nothing to send,
   the end is reported once. An upload that has reported `Completed` has reached the end.
   */
  ghost predicate ReportsTiles(w: Worker, log: seq<WorkerEvent>, start: nat) {
    var n, chunk, total := |w.accepted|, w.task.chunkSize, w.task.totalSize;
    && (forall i :: 0 <= i < |log| && log[i].Progress? ==>
          IsReport(log[i], w.key, Pos(i + 1, start, chunk, total), total))
    && (InLoop(w.phase) ==> |log| == n && (n > 0 ==> w.phase.offset < total))
    && (w.phase.Got? ==> |log| + 1 == Max(n, 1) && w.phase.outcome.nextOffset == Pos(|log| + 1, start, chunk, total))
    && (w.phase.Finishing? ==> |log| == Max(n, 1))
    && (log != [] && log[|log| - 1].Completed? ==>
          w.phase.Over? && Pos(n, start, chunk, total) == total && |log| == Max(n, 1) + 1)
    && (log != [] && log[|log| - 1].Canceled? ==> w.phase.Over? && |log| == n + 1)
  }

  predicate IsReport(e: WorkerEvent, key: Key, offset: int, total: int) {
    e.Progress? && e.key == key && e.nextOffset == offset && e.totalSize == total
  }

  lemma StepKeepsReports(w: Worker, file: Option<seq<byte>>, i: Input, start: nat, log: seq<WorkerEvent>)
    requires Fits(w, i) && 1 <= w.task.chunkSize && TilingOk(w, TaskIo(file, w.open).Content(), start)
    requires NoEarlyId(w, i) && ReportsTiles(w, log, start)
    ensures var (w', _, ev) := Next(w, file, i); ReportsTiles(w', log + ev, start)
  {
    hide Tiles, Pos, UploadChunk, DownloadChunk, Prepare, Slices;
    assert log + [] == log;
    if i.Attempted? {
      AttemptKeepsReports(w, file, i.chunk, start, log);
    } else if i.Reported? {
      if w.accepted == [] {
        NothingSentIsTheEnd(start, w.task.chunkSize, w.task.totalSize);
      }
    }
  }

  lemma NothingSentIsTheEnd(start: nat, chunk: nat, total: nat)
    requires 1 <= chunk && start <= total && Pos(0, start, chunk, total) == Pos(1, start, chunk, total)
    ensures Pos(0, start, chunk, total) == total
  {}

  lemma AttemptKeepsReports(w: Worker, file: Option<seq<byte>>, env: ChunkEnv, start: nat, log: seq<WorkerEvent>)
    requires w.phase.Sending? && 1 <= w.task.chunkSize && TilingOk(w, TaskIo(file, w.open).Content(), start)
    requires NoEarlyId(w, Attempted(env)) && ReportsTiles(w, log, start)
    ensures var (w', _, ev) := Next(w, file, Attempted(env)); ReportsTiles(w', log + ev, start)
  {
    hide UploadChunk, Slices, Tiles, Pos;
    var io := TaskIo(file, w.open);
    assert log + [] == log;
    NextPos(|w.accepted|, start, w.task.chunkSize, w.task.totalSize);
    if UploadChunk(w.task, io, w.phase.offset, env).1.Ok? {
      SuccessSendsNextChunk(w.task, io, w.phase.offset, env);
    }
  }

  ghost predicate IsFreshUpload(w: Worker) {
    w.phase.Preparing? && w.accepted == [] && w.task.direction == Upload && 1 <= w.task.chunkSize
  }

  /** Before a successful prepare nothing happens; after it the tiling holds. */
  ghost predicate RunTiling(w0: Worker, file: Option<seq<byte>>, inputs: seq<Input>, w: Worker) {
    && w.task == w0.task
    && (IsFreshUpload(w0) ==>
          match Begun(w0, file, inputs)
          case Some(start) => TilingOk(w, TaskIo(file, w.open).Content(), start)
          case None => w.accepted == [] && (if inputs == [] then w == w0 else w.phase.Over?))
  }

  lemma FirstStepTiles(w: Worker, file: Option<seq<byte>>, i: Input)
    requires IsFreshUpload(w) && Fits(w, i)
    ensures var (w', file', ev) := Next(w, file, i);
            && file' == file && RunTiling(w, file, [i], w')
            && match Begun(w, file, [i])
               case Some(start) => ReportsTiles(w', ev, start)
               case None => forall j :: 0 <= j < |ev| ==> ev[j].Failed?
  {
    hide UploadChunk, DownloadChunk, Pos;
    if Begun(w, file, [i]).Some? {
      FirstPos(Begun(w, file, [i]).value, w.task.chunkSize, w.task.totalSize);
    }
  }

  lemma FirstPos(start: nat, chunk: nat, total: nat)
    requires start <= total
    ensures Pos(0, start, chunk, total) == start
  {}

  lemma {:induction false} RunKeepsTiling(w: Worker, file: Option<seq<byte>>, inputs: seq<Input>)
    requires FitsAll(w, file, inputs) && NoEarlyIds(w, file, inputs) && IsFreshUpload(w)
    ensures var (w', file', log) := Replay(w, file, inputs);
            && file' == file && RunTiling(w, file, inputs, w')
            && (match Begun(w, file, inputs)
                case Some(start) => ReportsTiles(w', log, start)
                case None => forall j :: 0 <= j < |log| ==> log[j].Failed?)
    decreases |inputs|
  {
    hide TilingOk, Next, NoEarlyId, Pos, Prepare;
    if inputs == [] {
    } else {
      var n := |inputs| - 1;
      var (w1, file1, log) := Replay(w, file, inputs[..n]);
      RunKeepsTiling(w, file, inputs[..n]);
      if n == 0 {
        assert inputs == [inputs[0]] && inputs[..n] == [];
        FirstStepTiles(w, file, inputs[0]);
        assert log == [] && forall ev: seq<WorkerEvent> :: log + ev == ev;
      } else {
        assert inputs[..n][0] == inputs[0];
        var start := Begun(w, file, inputs).value;
        StepKeepsTiling(w1, file1, inputs[n], start);
        WhoWrites(w1, file1, inputs[n]);
        StepKeepsReports(w1, file1, inputs[n], start, log);
      }
    }
  }

  /** The first observation of an upload that has begun is an answer of the server, and tells where it begins. */
  lemma BegunAt(w: Worker, file: Option<seq<byte>>, inputs: seq<Input>)
    requires w.phase.Preparing? && w.task.direction == Upload && Begun(w, file, inputs).Some?
    ensures inputs != [] && inputs[0].Prepared?
    ensures exists info :: Parsed(inputs[0].prepare.probe, info)
              && BeginsWell(Begun(w, file, inputs).value, w.task.totalSize, w.phase.start, info)
  {
    var probe := inputs[0].prepare.probe;
    assert Parsed(probe, probe.info.value);
    BeginMeaning(w.task, w.phase.start, probe.info.value);
  }

  /** No slice begins before the byte that the server, or the scheduler, names as the next one. */
  ghost predicate NothingSentTwice(slices: seq<seq<byte>>, start: nat, chunk: nat, total: nat, local: nat,
                                   info: UploadInfo) {
    forall i :: 0 <= i < |slices| ==>
      && !info.completed && local <= Pos(i, start, chunk, total)
      && (info.nextByte.Some? ==> info.nextByte.value <= Pos(i, start, chunk, total))
  }

  lemma PosFromStart(n: nat, start: nat, chunk: nat, total: nat)
    requires start <= total
    ensures start <= Pos(n, start, chunk, total) <= total
  {
    MulMonotone(0, n, chunk);
  }

  lemma TilesFromBegin(slices: seq<seq<byte>>, source: seq<byte>, start: nat, chunk: nat, total: nat, local: nat,
                       info: UploadInfo)
    requires Tiles(slices, source, start, chunk, total) && BeginsWell(start, total, local, info)
    ensures NothingSentTwice(slices, start, chunk, total, local, info)
  {
    hide Pos;
    forall i | 0 <= i < |slices|
      ensures !info.completed && local <= Pos(i, start, chunk, total)
      ensures info.nextByte.Some? ==> info.nextByte.value <= Pos(i, start, chunk, total)
    {
      assert IsChunk(slices[i], i, source, start, chunk, total);
      PosFromStart(i, start, chunk, total);
      PosFromStart(i + 1, start, chunk, total);
    }
  }

  /**
   Over any run of an upload that prepare lets begin at `start`: the accepted slices are consecutive
   chunks of the source, and failed attempts do not move the offset. On `Completed` they are exactly
   `source[start..total]`, cut into the least possible number of chunks.
   */
  lemma UploadTilesTheSource(key: Key, task: InnerTask, local: u64, file: Option<seq<byte>>, inputs: seq<Input>)
    requires task.direction == Upload && 1 <= task.chunkSize
    requires FitsAll(NewWorker(key, task, local), file, inputs) && NoEarlyIds(NewWorker(key, task, local), file, inputs)
    requires Begun(NewWorker(key, task, local), file, inputs).Some?
    ensures var w0 := NewWorker(key, task, local);
            var start := Begun(w0, file, inputs).value;
            var (w, _, log) := Replay(w0, file, inputs);
            var source := TaskIo(file, false).Content();
            && start <= task.totalSize && inputs != [] && inputs[0].Prepared?
            && (exists info ::
                  && Parsed(inputs[0].prepare.probe, info) && BeginsWell(start, task.totalSize, local, info)
                  && NothingSentTwice(w.accepted, start, task.chunkSize, task.totalSize, local, info))
            && Tiles(w.accepted, source, start, task.chunkSize, task.totalSize)
            && (InLoop(w.phase) ==> w.phase.offset == Pos(|w.accepted|, start, task.chunkSize, task.totalSize))
            && ReportsTiles(w, log, start)
            && (log != [] && log[|log| - 1].Completed? ==>
                  && |w.accepted| == CeilDiv(task.totalSize - start, task.chunkSize)
                  && (start < task.totalSize ==>
                        task.totalSize <= |source| && Concat(w.accepted) == source[start..task.totalSize]))
  {
    hide NoEarlyIds, FitsAll, Replay, Begun;
    var w0 := NewWorker(key, task, local);
    BegunAt(w0, file, inputs);
    RunKeepsTiling(w0, file, inputs);
    var start := Begun(w0, file, inputs).value;
    var (w, _, log) := Replay(w0, file, inputs);
    var n := |w.accepted|;
    var info :| Parsed(inputs[0].prepare.probe, info) && BeginsWell(start, task.totalSize, local, info);
    TilesFromBegin(w.accepted, TaskIo(file, false).Content(), start, task.chunkSize, task.totalSize, local, info);
    if log != [] && log[|log| - 1].Completed? {
      assert n > 0 ==> IsChunk(w.accepted[n - 1], n - 1, TaskIo(file, false).Content(), start, task.chunkSize,
                               task.totalSize);
      CountChunks(n, start, task.chunkSize, task.totalSize);
      TilesConcat(w.accepted, TaskIo(file, false).Content(), start, task.chunkSize, task.totalSize);
    }
  }
}
