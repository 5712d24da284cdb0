/** Entities shared by the whole model: directions, keys, tasks, statuses and worker events. */
module Basics {

  const U64_LIMIT: nat := 0x1_0000_0000_0000_0000

  /** Rust's `u64`. Arithmetic is done on `int`; wrap-around is written out where it can happen. */
  type u64 = x: int | 0 <= x < U64_LIMIT

  datatype Option<+T> = None | Some(value: T)

  datatype Result<+T> = Ok(value: T) | Err(error: ErrorCode)

  /** Why an operation failed: the `InnerErrorCode`s the modelled code raises. */
  datatype ErrorCode =
    | Unknown
    | DuplicateTaskError
    | IoError
    | HttpError
    | TaskNotFound
    | ResponseStatusError
    | MissingContentLength
    | ResponseParseError
    | InvalidRange
    | InvalidTaskState

  datatype Direction = Upload | Download

  /** The dedupe key of a task group. */
  datatype Key = Key(dir: Direction, name: string)

  datatype TaskId = TaskId(uuid: nat)

  datatype InnerTask = InnerTask(
    taskId: TaskId,
    direction: Direction,
    fileSign: string,
    filePath: string,
    url: string,
    totalSize: u64,
    chunkSize: u64,
    maxChunkRetries: nat)
  {
    /** An upload is identified by the digest of its file, a download by its URL. */
    function DedupeKey(): (key: Key)
      ensures key.dir == direction
    {
      match direction
      case Upload => Key(Upload, fileSign)
      case Download => Key(Download, url)
    }
  }

  datatype Status =
    | Pending
    | Transmission
    | Paused
    | Complete
    | Failed(error: ErrorCode)
    | Canceled
  {
    /** The statuses after which a task is over. */
    predicate IsTerminal() {
      Complete? || Failed? || Canceled?
    }
  }

  datatype WorkerEvent =
    | Progress(key: Key, nextOffset: u64, totalSize: u64)
    | Completed(key: Key, totalSize: u64)
    | Failed(key: Key, error: ErrorCode)
    | Canceled(key: Key)

  predicate IsDownload(t: InnerTask) {
    t.direction == Download
  }

  /** Two tasks do the same work: they upload the same content, or download from the same URL. */
  predicate SameWork(t: InnerTask, t': InnerTask) {
    && t.direction == t'.direction
    && (t.direction == Upload ==> t.fileSign == t'.fileSign)
    && (t.direction == Download ==> t.url == t'.url)
  }

  lemma SameKeyIsSameWork(t: InnerTask, t': InnerTask)
    ensures t.DedupeKey() == t'.DedupeKey() <==> SameWork(t, t')
  {}
}
