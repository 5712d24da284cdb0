/**
 The client's chunk functions as they run: one check after the other, changing the local file and
 the task's file handle in place.
 */
module TransferTask {
  import opened Basics
  import opened Arithmetic
  import opened HttpClient
  import opened ChunkMeaning
  import CR = ContentRange

  class Task {
    const inner: InnerTask
    var file: Option<seq<byte>>              // the local file at `inner.filePath`
    var open: bool                           // the slot of the task's direction holds a file handle
    var requested: Option<string>            // the last `Range` header sent

    function Io(): TaskIo
      reads this
    {
      TaskIo(file, open)
    }

    /** A worker makes its own task view, with empty handle slots. */
    constructor (inner: InnerTask, file: Option<seq<byte>>)
      ensures this.inner == inner && Io() == TaskIo(file, false)
    {
      this.inner, this.file, open, requested := inner, file, false, None;
    }

    /**
     A download continues where its file ends, if the server announces at least that much. An upload
     continues at the later of what both sides have, but not past the end.
     */
    method PrepareTransfer(localOffset: u64, env: PrepareEnv) returns (r: Result<PrepareOutcome>)
      ensures r == Prepare(inner, Io(), localOffset, env)
      ensures inner.direction == Download ==>
                && (r.Ok? <==> !env.fault.StatFile? && exists length :: Fills(env.head, length, |Io().Content()|))
                && (r.Ok? ==> r.value.nextOffset == |Io().Content()| && Announced(env.head, r.value.totalSize))
                && (r.Err? ==> DownloadRefusal(r.error, Io(), env))
      ensures inner.direction == Upload ==>
                && (r.Ok? <==> exists info :: Parsed(env.probe, info))
                && (forall info :: Parsed(env.probe, info) ==>
                      && r.value.totalSize == inner.totalSize
                      && BeginsWell(r.value.nextOffset, inner.totalSize, localOffset, info))
                && (r.Err? ==> UploadRefusal(r.error, env.probe))
    {
      hide DownloadRefusal, UploadRefusal, BeginsWell;
      PrepareMeaning(inner, Io(), localOffset, env);
      RefusalMeaning(inner, Io(), localOffset, env);
      if env.probe.Answer? && env.probe.info.Some? {
        BeginMeaning(inner, localOffset, env.probe.info.value);
      }
      match inner.direction {
        case Upload => r := UploadPrepare(inner, localOffset, env);
        case Download => r := DownloadPrepare(Io(), env);
      }
    }

    /** The checks of a ranged reply, in the order in which the client makes them. */
    method ReceiveRange(offset: u64, total: u64, get: GetReply) returns (r: Result<seq<byte>>)
      ensures r == CheckReply(get, offset, total)
      ensures forall data :: r == Ok(data) <==> Carries(get, offset, total, data)
      ensures r.Err? ==> (IsRetryable(r.error) <==> get.NoResponse? || BreaksOff(get, offset, total))
      ensures r.Err? ==> r.error == HttpError || r.error == InvalidRange
    {
      hide CR.ParseContentRange, Carries, BreaksOff;
      ReplyMeaning(get, offset, total);
      if get.NoResponse? {
        return Err(HttpError);
      }
      if get.status != 206 {
        return Err(InvalidRange);
      }
      if get.contentRange.None? {
        return Err(InvalidRange);
      }
      var parsed := CR.ParseContentRange(get.contentRange.value);
      if parsed.Err? {
        return Err(parsed.error);
      }
      var range := parsed.value;
      if range.start != offset {
        return Err(InvalidRange);
      }
      if range.total.Some? {
        if range.total.value != total {
          return Err(InvalidRange);
        }
      }
      if get.body.None? {
        return Err(HttpError);
      }
      var data := get.body.value;
      if data == [] {
        return Err(InvalidRange);
      }
      var expectedLen := (range.end - range.start + 1) % U64_LIMIT;
      if |data| != expectedLen {
        return Err(InvalidRange);
      }
      return Ok(data);
    }

    method DownloadOneChunk(offset: u64, chunkSize: u64, total: u64, env: ChunkEnv) returns (r: Result<ChunkOutcome>)
      modifies this
      ensures (Io(), r) == DownloadChunk(old(Io()), offset, total, env)
      ensures offset >= total ==> Io() == old(Io()) && r == Ok(ChunkOutcome(offset, total, true))
      ensures offset < total ==>
                && requested == Some(CR.RangeSpec(offset, chunkSize, total))
                && (r.Ok? <==> Writable(old(Io()), offset, env.fault)
                               && exists data :: Carries(env.get, offset, total, data))
                && (r.Err? ==> (IsRetryable(r.error) <==> env.get.NoResponse? || BreaksOff(env.get, offset, total)))
                && (r.Err? && IsRetryable(r.error) ==> Io() == old(Io()))
    {
      hide CR.ParseContentRange, WriteAt, CheckReply, Carries, BreaksOff, Writable, IsRetryable;
      if offset < total {
        DownloadMeaning(Io(), offset, total, env);
      }
      if offset >= total {
        return Ok(ChunkOutcome(offset, total, true));
      }
      requested := Some(CR.RangeSpec(offset, chunkSize, total));
      var checked := ReceiveRange(offset, total, env.get);
      if checked.Err? {
        return Err(checked.error);
      }
      var data := checked.value;
      r := WriteRange(offset, total, data, env.fault);
    }

    method WriteRange(offset: u64, total: u64, data: seq<byte>, fault: Fault) returns (r: Result<ChunkOutcome>)
      modifies this`file, this`open
      ensures (Io(), r) == WriteChunk(old(Io()), offset, total, data, fault)
      ensures r.Ok? <==> Writable(old(Io()), offset, fault)
      ensures r.Ok? ==>
                var next := (offset + |data|) % U64_LIMIT;
                r.value == ChunkOutcome(next, total, total <= next) && Written(old(Io()), Io(), offset, data)
      ensures r.Err? ==>
                && PartlyWritten(old(Io()), Io(), offset, data)
                && r.error == if Misplaced(old(Io()), offset, fault) then InvalidRange else IoError
    {
      hide WriteAt, Writable, Misplaced, Written, PartlyWritten;
      WriteMeaning(Io(), offset, total, data, fault);
      if offset == 0 && fault.ParentDir? {
        return Err(IoError);
      }
      if offset == 0 {
        if fault.OpenFile? {
          return Err(IoError);
        }
        file := Some([]);
        open := true;
      } else if !open {
        if fault.OpenFile? {
          return Err(IoError);
        }
        if file.None? {
          file := Some([]);
        }
        if fault.StatFile? {
          return Err(IoError);
        }
        if |Io().Content()| != offset {
          return Err(InvalidRange);
        }
        open := true;
      }
      if fault.SeekFile? {
        return Err(IoError);
      }
      if fault.WriteFile? {
        file := Some(WriteAt(Io().Content(), offset, data[..Min(fault.written, |data|)]));
        return Err(IoError);
      }
      file := Some(WriteAt(Io().Content(), offset, data));
      var next := (offset + |data|) % U64_LIMIT;
      return Ok(ChunkOutcome(next, total, next >= total));
    }

    method UploadOneChunk(offset: u64, env: ChunkEnv) returns (r: Result<ChunkOutcome>)
      modifies this`open
      ensures (Io(), r) == UploadChunk(inner, old(Io()), offset, env)
      ensures UploadedWell(inner, old(Io()), Io(), offset, env, r)
    {
      hide UploadedWell;
      UploadMeaning(inner, Io(), offset, env);
      var total := inner.totalSize;
      if offset >= total {
        return Ok(ChunkOutcome(offset, total, true));
      }
      var readLen := Min(inner.chunkSize, total - offset);
      if readLen == 0 {
        return Ok(ChunkOutcome(offset, total, true));
      }
      if !open {
        if env.fault.OpenFile? || file.None? {
          return Err(IoError);
        }
        open := true;
      }
      var slice := ReadSlice(inner, Io(), offset, env.fault);
      if slice.None? {
        return Err(IoError);
      }
      var buf := slice.value;
      if env.post.NoAnswer? {
        return Err(HttpError);
      }
      if !IsSuccess(env.post.status) {
        return Err(HttpError);
      }
      if env.post.info.None? {
        return Err(ResponseParseError);
      }
      if env.post.info.value.completed {
        return Ok(ChunkOutcome(total, total, true));
      }
      var next := offset + |buf|;
      return Ok(ChunkOutcome(next, total, next >= total));
    }

    method TransferOneChunk(offset: u64, total: u64, env: ChunkEnv) returns (r: Result<ChunkOutcome>)
      modifies this
      ensures (Io(), r) == TransferChunk(inner, old(Io()), offset, total, env)
      ensures inner.direction == Download && offset < total ==>
                requested == Some(CR.RangeSpec(offset, inner.chunkSize, total))
    {
      match inner.direction {
        case Upload => r := UploadOneChunk(offset, env);
        case Download => r := DownloadOneChunk(offset, inner.chunkSize, total, env);
      }
    }
  }
}
