/** What the client's prepare, write and chunk functions do, said without the functions that compute it. */
module ChunkMeaning {
  import opened Basics
  import opened Arithmetic
  import opened HttpClient
  import CR = ContentRange

  // ---- prepare ----

  /**
   The upload of `total` bytes begins where the one that has more of it ends; at the end if the server has the
   file.
   */
  predicate BeginsWell(start: nat, total: nat, local: nat, info: UploadInfo) {
    var named := if info.nextByte.Some? then info.nextByte.value else 0;
    && start <= total
    && (start == total <==> info.completed || total <= local || total <= named)
    && (start < total ==> local <= start && named <= start && (start == local || start == named))
  }

  lemma BeginMeaning(task: InnerTask, local: u64, info: UploadInfo)
    ensures BeginsWell(UploadBegin(task, local, info), task.totalSize, local, info)
  {}

  /** Why a download could not be prepared. */
  predicate DownloadRefusal(e: ErrorCode, io: TaskIo, env: PrepareEnv) {
    match e
    case IoError => env.fault.StatFile?
    case HttpError => !env.fault.StatFile? && env.head.NoHead?
    case ResponseStatusError => !env.fault.StatFile? && env.head.Head? && env.head.status / 100 != 2
    case MissingContentLength =>
      !env.fault.StatFile? && (Announced(env.head, 0) || (env.head.Head? && env.head.status / 100 == 2
                                                         && env.head.contentLength.None?))
    case InvalidRange =>
      !env.fault.StatFile? && exists length: u64 :: 0 < length < |io.Content()| && Announced(env.head, length)
    case _ => false
  }

  /** Why an upload could not be prepared. */
  predicate UploadRefusal(e: ErrorCode, probe: PostReply) {
    match e
    case HttpError => probe.NoAnswer?
    case ResponseStatusError => probe.Answer? && probe.status / 100 != 2
    case ResponseParseError => probe.Answer? && probe.status / 100 == 2 && probe.info.None?
    case _ => false
  }

  lemma RefusalMeaning(task: InnerTask, io: TaskIo, local: u64, env: PrepareEnv)
    ensures DownloadPrepare(io, env).Err? ==> DownloadRefusal(DownloadPrepare(io, env).error, io, env)
    ensures UploadPrepare(task, local, env).Err? ==> UploadRefusal(UploadPrepare(task, local, env).error, env.probe)
  {
    if DownloadPrepare(io, env) == Err(InvalidRange) {
      assert Announced(env.head, env.head.contentLength.value);
    }
  }

  // ---- writing ----

  /** `after` is `before` with `data` laid over it at `offset`; a gap between them reads as zeros. */
  predicate Overlaid(after: seq<byte>, before: seq<byte>, offset: nat, data: seq<byte>) {
    && |after| == Max(|before|, offset + |data|)
    && forall i :: 0 <= i < |after| ==>
         after[i] == if offset <= i < offset + |data| then data[i - offset]
                     else if i < |before| then before[i]
                     else 0
  }

  lemma WriteAtMeaning(file: seq<byte>, offset: nat, data: seq<byte>)
    ensures Overlaid(WriteAt(file, offset, data), file, offset, data)
  {}

  /** What the file holds when a chunk from `offset` is about to be written: the first chunk starts it anew. */
  function Base(io: TaskIo, offset: nat): seq<byte> {
    if offset == 0 then [] else io.Content()
  }

  /** A later chunk finds a file that does not end at its offset. */
  predicate Misplaced(io: TaskIo, offset: nat, fault: Fault) {
    0 < offset && !io.open && !fault.OpenFile? && !fault.StatFile? && |io.Content()| != offset
  }

  /** The file operations that a chunk from `offset` needs. */
  predicate Writable(io: TaskIo, offset: nat, fault: Fault) {
    && !fault.SeekFile? && !fault.WriteFile? && !Misplaced(io, offset, fault)
    && (offset == 0 ==> !fault.ParentDir? && !fault.OpenFile?)
    && (offset > 0 && !io.open ==> !fault.OpenFile? && !fault.StatFile?)
  }

  ghost predicate Written(io: TaskIo, io': TaskIo, offset: nat, data: seq<byte>) {
    io'.open && io'.file.Some? && Overlaid(io'.file.value, Base(io, offset), offset, data)
  }

  /**
   A failed write leaves the file alone, or empties it if it was the first chunk, or lays part of the data over
   it.
   */
  ghost predicate PartlyWritten(io: TaskIo, io': TaskIo, offset: nat, data: seq<byte>) {
    || io'.Content() == io.Content() || io'.Content() == Base(io, offset)
    || exists n :: 0 <= n <= |data| && Overlaid(io'.Content(), Base(io, offset), offset, data[..n])
  }

  lemma WriteMeaning(io: TaskIo, offset: u64, total: u64, data: seq<byte>, fault: Fault)
    ensures var (io', r) := WriteChunk(io, offset, total, data, fault);
            var next := (offset + |data|) % U64_LIMIT;
            && (r.Ok? <==> Writable(io, offset, fault))
            && (r.Ok? ==> r.value == ChunkOutcome(next, total, total <= next) && Written(io, io', offset, data))
            && (r.Err? ==> PartlyWritten(io, io', offset, data)
                           && r.error == if Misplaced(io, offset, fault) then InvalidRange else IoError)
  {
    hide WriteAt, Overlaid;
    WriteAtMeaning(Base(io, offset), offset, data);
    if fault.WriteFile? {
      WriteAtMeaning(Base(io, offset), offset, data[..Min(fault.written, |data|)]);
    }
  }

  // ---- chunks ----

  /** The whole attempt at a download chunk: what makes it succeed, and which failures are tried again. */
  lemma DownloadMeaning(io: TaskIo, offset: u64, total: u64, env: ChunkEnv)
    requires offset < total
    ensures var (io', r) := DownloadChunk(io, offset, total, env);
            && (r.Ok? <==> Writable(io, offset, env.fault) && exists data :: Carries(env.get, offset, total, data))
            && (r.Err? ==> (IsRetryable(r.error) <==> env.get.NoResponse? || BreaksOff(env.get, offset, total)))
            && (r.Err? && IsRetryable(r.error) ==> io' == io)
  {
    hide CheckReply, WriteChunk, Carries, BreaksOff, Writable;
    ReplyMeaning(env.get, offset, total);
    match CheckReply(env.get, offset, total)
    case Ok(data) =>
      assert Carries(env.get, offset, total, data);
      CarriesIsNoBreak(env.get, offset, total, data);
      WriteMeaning(io, offset, total, data, env.fault);
    case Err(_) =>
  }

  lemma CarriesIsNoBreak(get: GetReply, offset: u64, total: u64, data: seq<byte>)
    requires Carries(get, offset, total, data)
    ensures get.Response? && !BreaksOff(get, offset, total)
  {}

  predicate NothingToSend(task: InnerTask, offset: nat) {
    task.totalSize <= offset || task.chunkSize == 0
  }

  function ChunkEnd(task: InnerTask, offset: nat): nat {
    Min(offset + task.chunkSize, task.totalSize)
  }

  /** The source can be opened, if need be, and has all bytes of the chunk. */
  predicate Readable(task: InnerTask, io: TaskIo, offset: nat, fault: Fault) {
    && (io.open || (!fault.OpenFile? && io.file.Some?))
    && !fault.SeekFile? && !fault.ReadFile? && ChunkEnd(task, offset) <= |io.Content()|
  }

  predicate Refused(post: PostReply) {
    post.NoAnswer? || post.status / 100 != 2
  }

  /**
   One attempt at an upload chunk: it succeeds iff its slice could be read and the server's answer too. It is worth
   another try iff the slice was read, and then the request failed or was refused.
   */
  ghost predicate UploadedWell(task: InnerTask, io: TaskIo, io': TaskIo, offset: u64, env: ChunkEnv,
                               r: Result<ChunkOutcome>) {
    var end, total, read := ChunkEnd(task, offset), task.totalSize, Readable(task, io, offset, env.fault);
    if NothingToSend(task, offset) then io' == io && r == Ok(ChunkOutcome(offset, total, true))
    else
      && io' == io.(open := io.open || (!env.fault.OpenFile? && io.file.Some?))
      && (r.Ok? <==> read && exists info :: Parsed(env.post, info))
      && (forall info :: r.Ok? && Parsed(env.post, info) ==>
            r.value == if info.completed then ChunkOutcome(total, total, true)
                       else ChunkOutcome(end, total, end == total))
      && (r.Err? ==>
            && (IsRetryable(r.error) <==> read && Refused(env.post))
            && r.error == if !read then IoError else if Refused(env.post) then HttpError else ResponseParseError)
  }

  lemma UploadMeaning(task: InnerTask, io: TaskIo, offset: u64, env: ChunkEnv)
    ensures var (io', r) := UploadChunk(task, io, offset, env); UploadedWell(task, io, io', offset, env, r)
  {
    if env.post.Answer? && env.post.info.Some? {
      assert Parsed(env.post, env.post.info.value) <==> IsSuccess(env.post.status);
    }
  }
}
