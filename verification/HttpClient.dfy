/**
 The default HTTP client: how a transfer is prepared and how one chunk is moved. Replies of the
 server and faults of the file system are arbitrary values; every check of the code is kept.
 */
module HttpClient {
  import opened Basics
  import opened Arithmetic
  import CR = ContentRange

  type byte = x: int | 0 <= x < 256

  /** The local file of a task (`None` when it does not exist) and whether the task holds it open. */
  datatype TaskIo = TaskIo(file: Option<seq<byte>>, open: bool)
  {
    function Content(): seq<byte> {
      if file.Some? then file.value else []
    }
  }

  datatype PrepareOutcome = PrepareOutcome(nextOffset: u64, totalSize: u64)

  datatype ChunkOutcome = ChunkOutcome(nextOffset: u64, totalSize: u64, done: bool)

  // ---- what the outside world may answer ----

  datatype HeadReply =
    | NoHead                                               // the request failed
    | Head(status: nat, contentLength: Option<u64>)

  datatype GetReply =
    | NoResponse
    | Response(status: nat, contentRange: Option<string>, body: Option<seq<byte>>)  // no body: reading it failed

  datatype UploadInfo = UploadInfo(completed: bool, nextByte: Option<u64>)

  datatype PostReply =
    | NoAnswer                                             // the request failed, or reading its answer
    | Answer(status: nat, info: Option<UploadInfo>)        // no info: the answer could not be parsed

  /** The first file operation of an attempt that fails; a failing write leaves some bytes behind. */
  datatype Fault = NoFault | ParentDir | OpenFile | StatFile | SeekFile | ReadFile | WriteFile(written: nat)

  datatype PrepareEnv = PrepareEnv(fault: Fault, head: HeadReply, probe: PostReply)

  datatype ChunkEnv = ChunkEnv(fault: Fault, get: GetReply, post: PostReply)

  predicate IsSuccess(status: nat): (r: bool)
    ensures r <==> status / 100 == 2
  {
    200 <= status < 300
  }

  // ---- prepare ----

  /** The local length, not the scheduler's offset, decides where a download continues. */
  function DownloadPrepare(io: TaskIo, env: PrepareEnv): Result<PrepareOutcome> {
    if env.fault.StatFile? then Err(IoError)
    else
      match env.head
      case NoHead => Err(HttpError)
      case Head(status, length) =>
        if !IsSuccess(status) then Err(ResponseStatusError)
        else if length.None? || length.value == 0 then Err(MissingContentLength)
        else
          var start, total := |io.Content()|, length.value;
          if start > total then Err(InvalidRange)
          else Ok(PrepareOutcome(start, total))
  }

  /** Where an upload begins: at the end if the server has the file, else as far as either side knows. */
  function UploadBegin(task: InnerTask, localOffset: u64, info: UploadInfo): u64 {
    var server := if info.nextByte.Some? then info.nextByte.value else 0;
    if info.completed then task.totalSize else Min(Max(localOffset, server), task.totalSize)
  }

  function UploadPrepare(task: InnerTask, localOffset: u64, env: PrepareEnv): Result<PrepareOutcome> {
    match env.probe
    case NoAnswer => Err(HttpError)
    case Answer(status, info) =>
      if !IsSuccess(status) then Err(ResponseStatusError)
      else if info.None? then Err(ResponseParseError)
      else Ok(PrepareOutcome(UploadBegin(task, localOffset, info.value), task.totalSize))
  }

  function Prepare(task: InnerTask, io: TaskIo, localOffset: u64, env: PrepareEnv): Result<PrepareOutcome> {
    match task.direction
    case Upload => UploadPrepare(task, localOffset, env)
    case Download => DownloadPrepare(io, env)
  }

  // ---- one download chunk ----

  /** Every check the client makes before it touches the file. */
  function CheckReply(get: GetReply, offset: u64, total: u64): Result<seq<byte>> {
    match get
    case NoResponse => Err(HttpError)
    case Response(status, contentRange, body) =>
      if status != 206 || contentRange.None? then Err(InvalidRange)
      else
        match CR.ParseContentRange(contentRange.value)
        case Err(e) => Err(e)
        case Ok(range) =>
          if range.start != offset then Err(InvalidRange)
          else if range.total.Some? && range.total.value != total then Err(InvalidRange)
          else if body.None? then Err(HttpError)
          else if body.value == [] then Err(InvalidRange)
          else if |body.value| != (range.end - range.start + 1) % U64_LIMIT then Err(InvalidRange)
          else Ok(body.value)
  }

  /** A file after `data` has been written at `offset`; a gap reads as zeros. */
  function WriteAt(file: seq<byte>, offset: nat, data: seq<byte>): seq<byte> {
    var padded := if |file| < offset then file + seq(offset - |file|, _ => 0) else file;
    padded[..offset] + data + if offset + |data| < |padded| then padded[offset + |data|..] else []
  }

  /** The first chunk truncates the file; a later one may only continue a file of exactly its offset. */
  function OpenForWrite(io: TaskIo, offset: u64, fault: Fault): (TaskIo, Result<()>) {
    if offset == 0 then
      if fault.ParentDir? || fault.OpenFile? then (io, Err(IoError))
      else (TaskIo(Some([]), true), Ok(()))
    else if !io.open then
      if fault.OpenFile? then (io, Err(IoError))
      else
        var io1 := io.(file := Some(io.Content()));
        if fault.StatFile? then (io1, Err(IoError))
        else if |io.Content()| != offset then (io1, Err(InvalidRange))
        else (io1.(open := true), Ok(()))
    else (io, Ok(()))
  }

  function WriteChunk(io: TaskIo, offset: u64, total: u64, data: seq<byte>, fault: Fault)
    : (TaskIo, Result<ChunkOutcome>)
  {
    match OpenForWrite(io, offset, fault)
    case (io1, Err(e)) => (io1, Err(e))
    case (io1, Ok(_)) =>
      if fault.SeekFile? then (io1, Err(IoError))
      else if fault.WriteFile? then
        (io1.(file := Some(WriteAt(io1.Content(), offset, data[..Min(fault.written, |data|)]))), Err(IoError))
      else
        var next := (offset + |data|) % U64_LIMIT;
        (io1.(file := Some(WriteAt(io1.Content(), offset, data))), Ok(ChunkOutcome(next, total, next >= total)))
  }

  function DownloadChunk(io: TaskIo, offset: u64, total: u64, env: ChunkEnv): (TaskIo, Result<ChunkOutcome>) {
    if offset >= total then (io, Ok(ChunkOutcome(offset, total, true)))
    else
      match CheckReply(env.get, offset, total)
      case Err(e) => (io, Err(e))
      case Ok(data) => WriteChunk(io, offset, total, data, env.fault)
  }

  // ---- one upload chunk ----

  function ReadLength(task: InnerTask, offset: u64): nat
    requires offset <= task.totalSize
  {
    Min(task.chunkSize, task.totalSize - offset)
  }

  /** Open and read the source; `None` stands for any failure. */
  function ReadSlice(task: InnerTask, io: TaskIo, offset: u64, fault: Fault): Option<seq<byte>>
    requires offset <= task.totalSize
  {
    var end := offset + ReadLength(task, offset);
    if !io.open && (fault.OpenFile? || io.file.None?) then None
    else if fault.SeekFile? || fault.ReadFile? || |io.Content()| < end then None
    else Some(io.Content()[offset..end])
  }

  function UploadChunk(task: InnerTask, io: TaskIo, offset: u64, env: ChunkEnv): (TaskIo, Result<ChunkOutcome>) {
    var total := task.totalSize;
    if offset >= total || ReadLength(task, offset) == 0 then (io, Ok(ChunkOutcome(offset, total, true)))
    else if !io.open && (env.fault.OpenFile? || io.file.None?) then (io, Err(IoError))
    else
      var io1 := io.(open := true);
      match ReadSlice(task, io1, offset, env.fault)
      case None => (io1, Err(IoError))
      case Some(slice) =>
        match env.post
        case NoAnswer => (io1, Err(HttpError))
        case Answer(status, info) =>
          if !IsSuccess(status) then (io1, Err(HttpError))
          else if info.None? then (io1, Err(ResponseParseError))
          else if info.value.completed then (io1, Ok(ChunkOutcome(total, total, true)))
          else (io1, Ok(ChunkOutcome(offset + |slice|, total, offset + |slice| >= total)))
  }

  function TransferChunk(task: InnerTask, io: TaskIo, offset: u64, total: u64, env: ChunkEnv)
    : (TaskIo, Result<ChunkOutcome>)
  {
    match task.direction
    case Upload => UploadChunk(task, io, offset, env)
    case Download => DownloadChunk(io, offset, total, env)
  }

  /** The slice that a successful upload chunk has handed to the server, if it had to send one. */
  function Slices(task: InnerTask, io: TaskIo, offset: u64, env: ChunkEnv): seq<seq<byte>> {
    if task.direction == Upload && offset < task.totalSize && 0 < ReadLength(task, offset) then
      match ReadSlice(task, io, offset, env.fault)
      case None => []
      case Some(slice) => [slice]
    else []
  }

  /** Only transient network failures of a chunk are tried again. */
  predicate IsRetryable(e: ErrorCode) {
    e == HttpError || e == ResponseStatusError
  }

  // ---- what the checks mean ----

  predicate Announced(head: HeadReply, length: u64) {
    head.Head? && IsSuccess(head.status) && head.contentLength == Some(length)
  }

  /** The announced resource is not empty, and the local file is not longer. */
  predicate Fills(head: HeadReply, length: u64, local: nat) {
    Announced(head, length) && 0 < length && local <= length
  }

  predicate Parsed(probe: PostReply, info: UploadInfo) {
    probe.Answer? && IsSuccess(probe.status) && probe.info == Some(info)
  }

  lemma PrepareMeaning(task: InnerTask, io: TaskIo, localOffset: u64, env: PrepareEnv)
    ensures DownloadPrepare(io, env).Ok? <==>
              !env.fault.StatFile? && exists length :: Fills(env.head, length, |io.Content()|)
    ensures UploadPrepare(task, localOffset, env).Ok? <==> exists info :: Parsed(env.probe, info)
  {
    if env.head.Head? && env.head.contentLength.Some? {
      var length := env.head.contentLength.value;
      assert Announced(env.head, length) <==> IsSuccess(env.head.status);
      assert Fills(env.head, length, |io.Content()|) <==>
             IsSuccess(env.head.status) && 0 < length && |io.Content()| <= length;
    }
    if env.probe.Answer? && env.probe.info.Some? {
      assert Parsed(env.probe, env.probe.info.value) <==> IsSuccess(env.probe.status);
    }
  }

  /** The header of a 206 reply names `length` bytes from `offset`, of a resource of that total or of unknown total. */
  ghost predicate Names(get: GetReply, offset: u64, total: u64, length: nat) {
    && get.Response? && get.status == 206 && get.contentRange.Some?
    && exists p, range ::
         && CR.Render(p) == get.contentRange.value && CR.Denotes(p, range)
         && range.start == offset && range.end - range.start + 1 == length
         && (range.total == None || range.total == Some(total))
  }

  /** A reply that brings `data`: not empty, and as long as its header says. */
  ghost predicate Carries(get: GetReply, offset: u64, total: u64, data: seq<byte>) {
    0 < |data| < U64_LIMIT && get.Response? && get.body == Some(data) && Names(get, offset, total, |data|)
  }

  /** A reply whose header is right but whose body cannot be read. */
  ghost predicate BreaksOff(get: GetReply, offset: u64, total: u64) {
    get.Response? && get.body == None && exists length :: Names(get, offset, total, length)
  }

  /** What the client's parser makes of the header, if it is the expected one. */
  function NamedLength(get: GetReply, offset: u64, total: u64): Option<int> {
    if get.NoResponse? || get.status != 206 || get.contentRange.None? then None
    else
      match CR.ParseContentRange(get.contentRange.value)
      case Err(_) => None
      case Ok(range) =>
        if range.start == offset && (range.total == None || range.total == Some(total))
        then Some(range.end - range.start + 1) else None
  }

  lemma NamesParsed(get: GetReply, offset: u64, total: u64, length: nat)
    ensures Names(get, offset, total, length) <==> NamedLength(get, offset, total) == Some(length)
  {
    hide CR.ParseContentRange, CR.Render, CR.Denotes;
    if Names(get, offset, total, length) {
      var p, range :| && CR.Render(p) == get.contentRange.value && CR.Denotes(p, range)
                      && range.start == offset && range.end - range.start + 1 == length
                      && (range.total == None || range.total == Some(total));
      CR.ParsesExactlyTheLanguage(get.contentRange.value, range);
    }
    if NamedLength(get, offset, total) == Some(length) {
      CR.ParsesExactlyTheLanguage(get.contentRange.value, CR.ParseContentRange(get.contentRange.value).value);
    }
  }

  /** The client's checks accept a reply iff it brings the asked data; the error says whether its transfer broke off. */
  lemma ReplyMeaning(get: GetReply, offset: u64, total: u64)
    ensures forall data :: CheckReply(get, offset, total) == Ok(data) <==> Carries(get, offset, total, data)
    ensures CheckReply(get, offset, total).Err? ==>
              CheckReply(get, offset, total).error ==
              if get.NoResponse? || BreaksOff(get, offset, total) then HttpError else InvalidRange
  {
    hide CR.ParseContentRange, Names;
    forall length: nat ensures Names(get, offset, total, length) <==> NamedLength(get, offset, total) == Some(length) {
      NamesParsed(get, offset, total, length);
    }
    if get.Response? && get.contentRange.Some? {
      ParseError(get.contentRange.value);
      if NamedLength(get, offset, total).Some? {
        assert Names(get, offset, total, NamedLength(get, offset, total).value);
      }
    }
  }

  lemma ParseError(value: string)
    ensures match CR.ParseContentRange(value)
            case Ok(range) => range.start <= range.end
            case Err(e) => e == InvalidRange
  {}

  // ---- an honest server ----

  /** A reply that passes for a range of the resource is that range. */
  ghost predicate HonestGet(get: GetReply, resource: seq<byte>) {
    get.Response? && get.status == 206 && get.contentRange.Some? && get.body.Some? && get.body.value != [] ==>
      match CR.ParseContentRange(get.contentRange.value)
      case Err(_) => true
      case Ok(range) =>
        |get.body.value| == (range.end - range.start + 1) % U64_LIMIT ==>
          range.end < |resource| && get.body.value == resource[range.start..range.end + 1]
  }

  /** The same for a reply to a request from `offset` only. */
  ghost predicate HonestAt(get: GetReply, offset: u64, resource: seq<byte>) {
    get.Response? && get.status == 206 && get.contentRange.Some? && get.body.Some? && get.body.value != [] ==>
      match CR.ParseContentRange(get.contentRange.value)
      case Err(_) => true
      case Ok(range) =>
        range.start == offset && |get.body.value| == (range.end - range.start + 1) % U64_LIMIT ==>
          range.end < |resource| && get.body.value == resource[range.start..range.end + 1]
  }

  lemma HonestAnywhere(get: GetReply, offset: u64, resource: seq<byte>)
    requires HonestGet(get, resource)
    ensures HonestAt(get, offset, resource)
  {
    hide CR.ParseContentRange;
  }

  ghost predicate HonestHead(head: HeadReply, resource: seq<byte>) {
    head.Head? && IsSuccess(head.status) && head.contentLength.Some? && head.contentLength.value > 0
    ==> head.contentLength.value == |resource|
  }

  // ---- what a download chunk does to the file ----

  lemma CheckedBodyIsNext(get: GetReply, offset: u64, total: u64, resource: seq<byte>)
    requires HonestAt(get, offset, resource) && |resource| < U64_LIMIT
    requires CheckReply(get, offset, total).Ok?
    ensures var data := CheckReply(get, offset, total).value;
            data != [] && offset + |data| <= |resource| && data == resource[offset..offset + |data|]
  {}

  lemma WriteAtEnd(file: seq<byte>, data: seq<byte>)
    ensures WriteAt(file, |file|, data) == file + data
  {}

  /** A download continues exactly where its file, a prefix of the resource, ends. */
  ghost predicate AtEnd(io: TaskIo, offset: u64, resource: seq<byte>) {
    offset <= |resource| && io.Content() == resource[..offset] && (io.open ==> io.file.Some?)
  }

  /** What an attempt at the chunk from `offset` may leave behind. */
  ghost predicate Extended(io: TaskIo, offset: u64, io': TaskIo, r: Result<ChunkOutcome>, resource: seq<byte>) {
    match r
    case Ok(outcome) =>
      && outcome.totalSize == |resource|
      && AtEnd(io', outcome.nextOffset, resource)
      && (outcome.done <==> outcome.nextOffset == |resource|)
      && (offset < outcome.nextOffset || offset == outcome.nextOffset == |resource|)
    case Err(e) =>
      && io'.Content() <= resource
      && (io'.open ==> io'.file.Some?)
      && (IsRetryable(e) ==> io' == io)
  }

  /**
   One attempt at the chunk that starts where the file ends. Success appends the next bytes of the
   resource; a retryable failure changes nothing; any other failure leaves a prefix of the resource.
   */
  lemma ChunkExtendsPrefix(io: TaskIo, offset: u64, total: u64, env: ChunkEnv, resource: seq<byte>)
    requires HonestAt(env.get, offset, resource) && total == |resource|
    requires AtEnd(io, offset, resource)
    ensures var (io', r) := DownloadChunk(io, offset, total, env); Extended(io, offset, io', r, resource)
  {
    hide CR.ParseContentRange, HonestAt, CheckReply, WriteChunk;
    if offset < total && CheckReply(env.get, offset, total).Ok? {
      var data := CheckReply(env.get, offset, total).value;
      CheckedBodyIsNext(env.get, offset, total, resource);
      WriteExtendsPrefix(io, offset, total, data, env.fault, resource);
    }
  }

  lemma WriteExtendsPrefix(io: TaskIo, offset: u64, total: u64, data: seq<byte>, fault: Fault, resource: seq<byte>)
    requires AtEnd(io, offset, resource) && total == |resource|
    requires data != [] && offset + |data| <= |resource| && data == resource[offset..offset + |data|]
    ensures var (io', r) := WriteChunk(io, offset, total, data, fault);
            Extended(io, offset, io', r, resource) && (r.Ok? ==> r.value.nextOffset == offset + |data|)
  {
    hide WriteAt, OpenForWrite;
    OpenedAtEnd(io, offset, fault);
    var part := data[..if fault.WriteFile? then Min(fault.written, |data|) else 0];
    WriteAtEnd(io.Content(), data);
    WriteAtEnd(io.Content(), part);
    assert resource[..offset] + data == resource[..offset + |data|];
    assert resource[..offset] + part == resource[..offset + |part|];
  }

  lemma OpenedAtEnd(io: TaskIo, offset: u64, fault: Fault)
    requires |io.Content()| == offset && (io.open ==> io.file.Some?)
    ensures var (io1, r) := OpenForWrite(io, offset, fault);
            && io1.Content() == io.Content()
            && (io1.open ==> io1.file.Some?)
            && (r.Err? ==> r.error == IoError)
  {}
}
