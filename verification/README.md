# A verified model of the transfer library

The library moves files over HTTP with resumable uploads and downloads. One scheduler thread owns all
bookkeeping and handles a command or a worker event at a time; every started task has a worker that prepares
the transfer, moves it chunk by chunk with retries, and reports back through a channel. This project models
both sides and what the default HTTP client does to the local file, and proves what the library promises about
every run.

How the modules build on each other:

- `Basics`, `Sequences`, `Arithmetic`: entities (task, key, direction, status, event) and small shared facts.
- `SchedulerState`: the scheduler's state as a value, and the meaning of each command and event as a function.
  A cancellation token is the number of the worker it was made for. Callback invocations go to an emission log.
- `Scheduler`: class `State`, the same operations as the code runs them: fields updated in place, the start
  loop as two nested loops that rotate the queue. Every method is proved equal to its function, so the lemmas
  about the functions are statements about the loops.
- `Invariants`, `StartOrder`, `Runs`, `StatusTrace`, `Answers`: what every command and event keeps, what one start
  pass does, what commands answer, and statements over all runs. A run here is any sequence of commands and any
  sequence of worker events, stale, repeated and invented ones included; the only hypothesis is that task ids are fresh.
- `ContentRange`, `Backoff`: the header grammar and the retry delays.
- `HttpClient`, `ChunkMeaning`, `TransferTask`: prepare and chunk functions over byte sequences, with arbitrary
  server replies and file faults; what they mean, said without them; class `Task` is the in-place version, proved
  equal to the functions and to mean that.
- `Worker`, `WorkerSafety`, `WorkerTermination`, `UploadTiling`: the worker as a state machine with one step per
  observation, its invariant, its measure and the slices an upload sends.
- `RunGroup`: the chunk loop and the retry loop as loops, proved to be runs of that machine that end.
- `Protocol`, `System`: the scheduler, all workers ever started, their event queues and the local files together.
  Any interleaving of commands, deliveries and worker steps is a run.
- `EndToEnd`, `Enabled`, `Stopping`, `Closing`, `Offsets`, `ProgressShown`, `Leftovers`, `UploadServer`, `LocalFile`: what that
  means for a user.
- `Orphans`, `Lost`, `Scenarios`, `Exactness`, `UploadRuns`: runs that really happen, built step by step: a download and an
  upload that complete, and what goes wrong when a key is enqueued too early, when a task inherits an offset that does
  not suit its file, and when an upload server forgets bytes. `LocalFile` says what becomes of a file that did not begin
  like the resource. There is no run for two downloads that share a file, nor for a range reply past the end.

Hypotheses of the system theorems:

- `System.Possible`, for every step: task ids are fresh; a HEAD reply that passes the code's checks has the
  resource's length, and a 206 reply that passes them carries that slice of the resource, with its last byte before
  the end (the code does not compare the range's end with the total).
- `System.Considerate`, for every accepted enqueue: `chunk_size` is at least 1; no worker of the key is still
  undrained (a worker is undrained until its last event has been handled); no other live download or undrained
  worker has the same local file; a download's file is absent or a beginning of its resource. Resume needs nothing of
  the kind: the code's "still stopping" rejection provides it. `Orphans.StaleEventEndsNewTask`,
  `Scenarios.CanceledWithoutCancel` and `Lost.UnstoppableWorker` show what goes wrong when the key is enqueued too
  early, and `LocalFile.CompletedIffBeginning` what a completed download has made of another file.
- `Offsets.Safe`, only for `ResumeNeverGoesBack` and `ProgressNeverGoesBack`, and only for the task that they are
  about: the offset that the key's history left it is within the task's total and, for a download, at most one byte
  beyond its local file (and not beyond the resource). A task whose key left nothing is always safe.
  `Exactness.ShownRightlyIffSafe` proves the condition exact.
- `UploadServer.Truthful`, only for uploads: the server, which may hold anything at first, confirms a slice only when it
  has stored it, names as next byte only one before which it holds everything, calls a file complete only when it is, and
  forgets nothing; the source file is the content behind its key whenever a chunk of it is read.
  `UploadServer.CompleteIffNothingSkipped` and `UploadServer.BeginsCoveredIff` say exactly what a server that forgets does
  to an upload, and `UploadRuns.ForgottenIsSkipped` is a run in which it happens.

Where the code and its comments could be read differently, the code is followed. Findings:

- `cancel_group` leaves the key's offset behind. `Leftovers.LeftoverExactly` says exactly when one is left over and
  which: iff the key's last task was cancelled while it had no worker and had something reported or inherited.
  The next task of the key is announced with it, whatever its own file (`Leftovers.NextTaskStartsFrom`), so its shown
  progress can go back (`Exactness.ProgressCanGoBack`).
- Worker events carry no run number, so a `Canceled` event ends whatever task holds the key unless the key is
  marked paused (`Orphans.CanceledEventEndsTask`, an exact condition). It also takes the `active` entry of the key's new
  worker away, which nothing stops from then on, not even a close (`Lost.UnstoppableWorker`).
- The duplicate branch of enqueue answers the rejected caller with a record that bears the live task's id; the
  trace theorems are about the callback, not about the id inside the record.
- The requested range is right exactly when `start + chunk_size - 1` fits in 64 bits
  (`ContentRange.RequestedRange`). Arithmetic wraps as in a release build.
- `max(local, server)` makes an upload skip what a server has forgotten, exactly when the remembered offset lies past
  what the server names (`UploadServer.BeginsCoveredIff`).

## Model

| member | source | states |
|---|---|---|
| Scheduler.State.constructor | src/inner/scheduler_state.rs:36-54 | a new scheduler is empty and satisfies the invariant |
| Scheduler.State.TryStartNext | src/inner/exec_impl/exec.rs:17-129 | the nested rotating loops terminate, equal one pass over the queue, end in a state where no task waits beside a free slot, and return exactly the keys of the workers just started |
| Scheduler.State.ExamineFront | src/inner/exec_impl/exec.rs:39-111 | one iteration: the front key is dropped, put back at the end or started, and the state stays as the pass expects it |
| Scheduler.State.Enqueue | src/inner/executor.rs:72-156 | rejected iff a live task has the same direction and the same source (file digest or URL), and then nothing changes but one record about that task; else there is one group more, first told Pending; the arm does in place what the enqueue function says, and keeps the invariant |
| Scheduler.State.PauseGroup | src/inner/executor.rs:344-385 | signals the worker, unqueues and marks the key, keeps the group, and keeps the invariant |
| Scheduler.State.ResumeGroup | src/inner/executor.rs:387-452 | rejects a key that is not paused or still stopping, else requeues it; result and state are those of the function |
| Scheduler.State.CancelGroup | src/inner/executor.rs:454-493 | removes the group, its id, its token and its marks, keeps the offset, and keeps the invariant |
| Scheduler.State.Pause | src/inner/executor.rs:157-187 | pause by id: answered Ok iff the id belongs to a live group, else TaskNotFound; then the start loop |
| Scheduler.State.Resume | src/inner/executor.rs:188-228 | resume by id: TaskNotFound iff no live group has the id, InvalidTaskState iff that group is not paused or still stopping, else Ok; then the start loop |
| Scheduler.State.Cancel | src/inner/executor.rs:229-259 | cancel by id: answered Ok iff the id belongs to a live group, else TaskNotFound; then the start loop |
| Scheduler.State.Close | src/inner/executor.rs:274-306 | cancels exactly the active tokens besides those cancelled before, reports every live task once in some order, and forgets everything |
| Scheduler.State.HandleWorkerEvent | src/inner/exec_impl/handle_worker_event.rs:6-104 | each event changes the maps as its function says and keeps the invariant, whichever worker sent it |
| Scheduler.State.OnWorkerEvent | src/inner/executor.rs:309-323 | an event and the start loop after it |
| Basics.SameKeyIsSameWork | src/inner/inner_task.rs:151-156 | two tasks have one dedupe key iff they have the same direction and, for uploads, the same file digest, for downloads, the same URL |
| Answers.EnqueueRejectedIff | src/inner/executor.rs:81-107 | in every reachable state an enqueue is rejected iff a live group's leader agrees with it in direction and in digest or URL; a rejected caller hears only Failed(DuplicateTaskError), an accepted one Pending first |
| Answers.ControlAnswers | src/inner/executor.rs:157-259 | in every reachable state pause and cancel are answered Ok iff the id leads a live group, iff its callback hears Paused or Canceled first in that step; resume is answered TaskNotFound, InvalidTaskState or Ok as the id is unknown, its group not parked, or parked, and Ok iff the callback hears Pending first |
| Closing.ActiveOrToldToStop | src/inner/executor.rs:464-466 | in every reachable state each worker that is not drained is the one its key's active entry stands for, or has been told to stop |
| Closing.CloseEndsEverything | src/inner/executor.rs:274-306 | after a close in any reachable state every undrained worker is stopped and takes at most three more steps, with no new transfer call; no worker is started and no callback hears anything any more, however the run goes on |
| StartOrder.StartsExactlyTheFirst | src/inner/exec_impl/exec.rs:30-121 | with f free slots in a direction, one pass starts exactly the first f live queued keys of that direction in queue order, drops dead keys, and leaves the rest in their order |
| StartOrder.SecondRoundStartsNothing | src/inner/exec_impl/exec.rs:114-120 | once no task waits beside a free slot, a further round changes nothing at all |
| Invariants.TryStartReachesTop | src/inner/exec_impl/exec.rs:30-121 | the start loop turns any consistent state into one where every queued key is live and its direction is full |
| Invariants.HandleKeepsCore | src/inner/exec_impl/handle_worker_event.rs:6-104 | any event, stale ones included, keeps queue mirror, phases, identity, tokens and bounds |
| Runs.ApplyKeepsTop | src/inner/executor.rs:67-325 | one turn of the command loop keeps the whole invariant |
| Runs.NoTaskIsLost | src/inner/executor.rs:72-306 | in every reachable state a key with a group is in exactly one of queued, active, stopping and paused, a key without one is in none; the queue has no duplicates and agrees with its set mirror |
| Runs.LimitedAndWorkConserving | src/inner/exec_impl/exec.rs:131-141 | in every reachable state each direction has at most its maximum of active keys, and exactly that many if a key of that direction waits |
| Runs.StopSignalsMatchPauseMarks | src/inner/executor.rs:354-364 | in every reachable state an active key's token is cancelled iff the key is marked paused |
| Runs.IdsMatchGroups | src/inner/executor.rs:109-138 | in every reachable state an id is known iff it leads a group and each leader's id maps back to its group; a group has its task's direction, and no two groups do the same work; the missing-group branch of resume and the already-running branch of enqueue cannot be reached |
| Runs.NeverOvertaken | src/inner/exec_impl/exec.rs:38-64 | while a key stays queued, no step increases the number of keys of its direction ahead of it |
| Runs.NeverOvertakenInRun | src/inner/exec_impl/exec.rs:38-64 | the same over any run |
| StatusTrace.StepTrace | src/inner/exec_impl/emit.rs:42-75 | exactly what each message tells each task's callback: its own status, then Transmission iff the start loop started that task |
| StatusTrace.WhoIsLive | src/inner/exec_impl/handle_worker_event.rs:31-102 | exactly which messages make an id controllable and which end it |
| StatusTrace.CallbackTraces | src/inner/executor.rs:81-138 | over any run an accepted task hears Pending first and at most one terminal status, which is last; its Pending records number its acceptance plus its successful resumes |
| StatusTrace.RejectedHearsOnce | src/inner/executor.rs:81-107 | the callback of a rejected duplicate hears exactly one Failed(DuplicateTaskError), however the run goes on |
| StatusTrace.NothingAfterTheEnd | src/inner/exec_impl/handle_worker_event.rs:31-102 | after a terminal status a callback hears nothing more, however the run goes on |
| ContentRange.ParsesNumerals | src/dflt/default_http_client.rs:422-433 | a number token is read as n iff it is an optional plus sign and at least one digit whose unbounded decimal value is n, below 2^64 |
| ContentRange.ParsesExactlyTheLanguage | src/dflt/default_http_client.rs:393-459 | a header value is accepted with a given meaning iff it is `bytes start-end/total` with blanks around the tokens, all numbers such numerals, and start at most end |
| ContentRange.RoundTrip | src/dflt/default_http_client.rs:393-459 | a printed range, known or unknown total, blanks added around any token, is read back exactly |
| ContentRange.RequestedRange | src/dflt/default_http_client.rs:385-391 | the header text asks for the next min(chunk, rest) bytes iff `start + chunk_size - 1` does not overflow; if it does, the range ends before it begins |
| Backoff.DelayBounds | src/inner/exec_impl/retry.rs:155-170 | every delay is within 80 to 120 percent of min(200 * 2^attempt, 5000) ms |
| Backoff.EveryJitterOccurs | src/inner/exec_impl/retry.rs:166-169 | each percentage from 80 to 120 is the jitter of some clock reading |
| Backoff.DelaysIncrease | src/inner/exec_impl/retry.rs:155-170 | through attempt 5 a later delay exceeds an earlier one for every choice of jitter |
| Backoff.TotalWaitBound | src/inner/exec_impl/retry.rs:155-170 | n delays add up to at most 240 * (2^n - 1) ms for n up to 5, then 6000 ms more for each |
| TransferTask.Task.PrepareTransfer | src/dflt/default_http_client.rs:140-286 | a download is prepared iff its file can be examined and the server announces a non-empty resource at least as long; it begins at the file's length. An upload is prepared iff the server's answer can be read; it begins where the one that has more of the file ends, at the end iff either side is that far or the server has the file. Each error says which check failed |
| TransferTask.Task.ReceiveRange | src/dflt/default_http_client.rs:494-583 | a body is accepted iff the reply is a 206 whose header denotes a range from the expected start, of the known or unknown total, and the body is non-empty and of that range's length; the error is HttpError iff the request failed or the body of such a reply broke off, else InvalidRange |
| TransferTask.Task.WriteRange | src/dflt/default_http_client.rs:585-692 | which file operations a write needs, and what it leaves: the first chunk starts the file anew, a later one is laid over it at its offset; a failure lays over at most a part of the data, and is InvalidRange iff the file does not end at the offset, else IoError |
| TransferTask.Task.DownloadOneChunk | src/dflt/default_http_client.rs:461-693 | one download chunk: it succeeds iff a reply brings the asked range and the file can be written; a failure is retryable iff the request or its body broke off, and then nothing has changed; also the range it asked for |
| TransferTask.Task.UploadOneChunk | src/dflt/default_http_client.rs:288-383 | one upload chunk: it succeeds iff there is nothing to send, or its slice can be read and the server's answer too; a failure is retryable iff the slice was read and the request failed or was refused; which error it is, the next offset, and the handle slot; the source file is never written |
| TransferTask.Task.TransferOneChunk | src/dflt/default_http_client.rs:717-742 | dispatch by direction, a download with the task's own chunk size |
| HttpClient.ChunkExtendsPrefix | src/dflt/default_http_client.rs:461-693 | an attempt where the file ends: success appends the next bytes of the resource and is done iff at its end, a retryable failure changes nothing, any other failure leaves a beginning of the resource |
| HttpClient.CheckedBodyIsNext | src/dflt/default_http_client.rs:494-583 | a body that passes every check is the resource's next slice |
| ChunkMeaning.WriteMeaning | src/dflt/default_http_client.rs:585-692 | the meaning of a write for any file, handle and fault, byte by byte |
| ChunkMeaning.DownloadMeaning | src/dflt/default_http_client.rs:461-693 | a download chunk succeeds iff a reply brings the asked range and the file can be written; only a broken transfer is retried, and it changes nothing |
| ChunkMeaning.UploadMeaning | src/dflt/default_http_client.rs:288-383 | an upload chunk succeeds iff it has nothing to send or its slice and the answer can be read; it is retried iff the slice was read and the request failed or was refused; an unreadable answer is ResponseParseError |
| WorkerSafety.StepKeepsOk | src/inner/exec_impl/exec.rs:177-263 | every step of a worker keeps its file a beginning of the resource and its offset at the file's end |
| WorkerSafety.StepKeepsLog | src/inner/exec_impl/exec.rs:184-262 | every step keeps: growing progress offsets, and one terminal event exactly when the worker is over |
| WorkerSafety.WhoWrites | src/dflt/default_http_client.rs:288-383 | only a download's chunk transfer ever changes a file |
| WorkerSafety.PanicIsUnknown | src/inner/exec_impl/exec.rs:93-111 | a worker reports Failed(Unknown) iff it panicked: no failure of prepare, of a chunk or of a file is reported so |
| WorkerTermination.StepDecreases | src/inner/exec_impl/retry.rs:57-139 | every step decreases a measure of chunks and retries left, and a transfer call uses up a call |
| WorkerTermination.FreshWorkerRuns | src/inner/exec_impl/exec.rs:143-264 | any run of a new worker makes at most max(1, total - prepared start) * (max_chunk_retries + 1) transfer calls, none if prepare failed, keeps the file a beginning of the resource, and has an exact copy once it reports Completed |
| RunGroup.TransferChunkWithRetry | src/inner/exec_impl/retry.rs:44-140 | the retry loop ends after at most max_chunk_retries waits and one attempt more, its delays are the jittered backoffs and add up to no more than the limit for max_chunk_retries waits, and it is a run of the worker machine that ends as its result says |
| RunGroup.ChunkLoop | src/inner/exec_impl/exec.rs:177-263 | the chunk loop terminates, and its events are those of a run of the worker machine that is over |
| RunGroup.Run | src/inner/exec_impl/exec.rs:143-264 | a whole worker terminates within the call bound counted from the prepared start, sends growing progress and then exactly one terminal event (Failed with prepare's error if that failed), and Completed means the file is the resource |
| UploadTiling.UploadTilesTheSource | src/dflt/default_http_client.rs:176-382 | an upload begins where the one that has more of the file ends, as the server's answer says; no slice begins before the byte that the server names, or before what the scheduler remembers; the accepted slices are consecutive chunks of the source from there, each reported once with where it ends; on Completed they are source[start..total] in the least number of chunks |
| Protocol.TryStartKeepsProtocol | src/inner/exec_impl/exec.rs:76-111 | the start loop keeps: one undrained worker per key, the one its active entry stands for |
| Protocol.CommandKeepsProtocol | src/inner/executor.rs:72-306 | so does every command |
| Protocol.EventKeepsProtocol | src/inner/exec_impl/handle_worker_event.rs:31-102 | so does every event of an undrained worker, which its terminal event drains |
| System.StepKeepsSysOk | src/inner/executor.rs:67-325 | every step of scheduler, channel or worker keeps the whole system's invariant |
| System.ReachableIsOk | src/inner/executor.rs:67-325 | it holds in every reachable state |
| EndToEnd.OneWorkerPerKey | src/inner/executor.rs:404-415 | in every reachable state no key has two undrained workers, a key is active iff it is live and has one, and queued keys are live |
| EndToEnd.FilesArePrefixes | src/dflt/default_http_client.rs:461-693 | in every reachable state every live download's file is a beginning of its resource |
| EndToEnd.CompleteMeansCopied | src/inner/exec_impl/handle_worker_event.rs:31-55 | when a download's callback hears Complete its file equals the resource, whatever failures, retries, pauses and resumes went before |
| EndToEnd.CanceledOnlyByCancel | src/inner/exec_impl/handle_worker_event.rs:76-101 | a callback hears Canceled only in the step that handles cancel with its own id |
| Orphans.CanceledEventEndsTask | src/inner/exec_impl/handle_worker_event.rs:76-101 | a Canceled event ends the task that holds the key iff the key is not marked paused |
| Orphans.StaleEventEndsNewTask | src/inner/executor.rs:464-466 | in any reachable state of the system with a running task: cancel it, enqueue its key again, let the old worker take its last step, deliver what it has sent. All these steps can happen, and its last event (Canceled, Failed or Completed) ends the new task |
| Scenarios.CanceledWithoutCancel | src/inner/executor.rs:464-466 | such a run from an idle scheduler, with the old worker's Canceled: the new task's callback hears Canceled, nobody having cancelled it |
| Lost.LastEventLoses | src/inner/exec_impl/handle_worker_event.rs:76-101 | a last event of an active key, whoever sent it, leaves the worker that the key's active entry stood for without an entry and without a stop signal iff the key is not marked paused |
| Lost.LostForever | src/inner/executor.rs:157-306 | no message ever tells such a worker to stop, however the run goes on |
| Lost.UnstoppableWorker | src/inner/executor.rs:464-466 | from an idle scheduler: a download is cancelled, the same work enqueued again, and the old worker's Canceled delivered; the new worker goes on and no continuation, a close included, ever stops it |
| Leftovers.LeftoverExactly | src/inner/executor.rs:454-493 | over any run, a key without task and undrained worker has an offset left over iff its last task was cancelled while it had no worker and had something reported or inherited, and then that amount; while a task lives, the offset is its last report or what it inherited |
| Leftovers.NextTaskStartsFrom | src/inner/executor.rs:109-138 | the next accepted task of a key is announced with what its last task left over, and with 0 if that left nothing |
| Offsets.WorkKeepsOffset | src/inner/exec_impl/exec.rs:177-263 | no step of a worker falls behind the offset the scheduler remembers for it |
| Offsets.StepKeepsOffset | src/inner/exec_impl/handle_worker_event.rs:20-87 | no step of the system lowers the offset of a task that lives on, nor lets it part from the task's run or file |
| Leftovers.ResumeNeverGoesBack | src/inner/exec_impl/handle_worker_event.rs:76-87 | for every safe task, whatever else happens: as long as it lives, through any pauses and resumes, its offset never decreases and never exceeds the total; a download without a worker stands exactly at its file's length if it has reported anything, else at what it inherited |
| ProgressShown.StepTells | src/inner/exec_impl/emit.rs:42-75 | exactly what each message and the start loop after it may show to a task's callback: which task it is about, amount and total, and that the amount is what the scheduler remembers from then on; a callback without a live task is shown nothing |
| ProgressShown.ReportsShowTheTotal | src/inner/exec_impl/handle_worker_event.rs:20-55 | in every reachable state, when a report or completion reaches a live task, its callback is shown the reported amount (or everything) of the size of what the task transfers, about the task itself |
| ProgressShown.CompleteShowsAll | src/inner/exec_impl/handle_worker_event.rs:31-55 | with Complete a callback is shown its own task with amount and total equal to the size of what it transfers, also for a download that was enqueued with total 0 |
| ProgressShown.StepKeepsFollowed | src/inner/exec_impl/emit.rs:42-75 | every step of the system keeps an accepted task followed: nothing shown beyond its total or behind something shown before |
| Leftovers.ProgressNeverGoesBack | src/inner/exec_impl/handle_worker_event.rs:6-104 | for every safe task, over any run: everything its callback is shown is within its total, and nothing shows less than something before it, through retries, pauses, resumes, cancels and late reports |
| Exactness.ShownRightlyIffSafe | src/inner/executor.rs:454-493 | for every accepted task whose direction has a slot: all continuations show it rightly iff it is safe with what its key's history left it |
| Exactness.LeftoverIsShown | src/inner/executor.rs:109-138 | from any state in which a download is accepted and downloads have a slot, steps follow that show its callback first the inherited offset, as Pending, and later any amount beyond its file's length |
| Exactness.ProgressCanGoBack | src/inner/executor.rs:454-493 | for any two downloads of one resource of at least three bytes into different files there is a run from an idle scheduler that shows the second one's callback less than before |
| Scenarios.DownloadCanComplete | src/inner/exec_impl/exec.rs:143-264 | every download of a non-empty resource has a run in which its callback hears Pending, Transmission, Transmission, Complete and its file is the resource |
| Enabled.ActiveRunsGoOn | src/inner/exec_impl/exec.rs:143-264 | in every reachable open state the run of every active key has a step that can happen, without a panic and whatever servers do |
| Enabled.RunsAreBounded | src/inner/exec_impl/exec.rs:143-264 | over any run of the system a worker and its events take a number of steps that was fixed before, whatever everybody else does |
| UploadServer.StepKeepsNet | src/dflt/default_http_client.rs:288-383 | every step keeps: what an upload worker or the scheduler believes to be transferred is on the server |
| UploadServer.CompleteMeansStored | src/inner/exec_impl/handle_worker_event.rs:31-55 | when an upload's callback hears Complete the server holds the source up to the task's size, whatever it held at first and whatever failures, lost replies, pauses and resumes went before |
| UploadServer.CompleteIffNothingSkipped | src/dflt/default_http_client.rs:189-201 | after a completed upload run the server holds the whole file iff it held everything before the run's start |
| UploadServer.BeginsCoveredIff | src/dflt/default_http_client.rs:189-190 | with a server that names exactly how far it holds the file, that is so iff the remembered offset does not lie past what the server names, or that is the end |
| UploadRuns.UploadCanComplete | src/inner/exec_impl/exec.rs:143-264 | an upload of two chunks, paused and resumed between them, has a run against a truthful server up to its Complete |
| UploadRuns.ForgottenIsSkipped | src/dflt/default_http_client.rs:189-201 | the same with a server that forgets during the pause and is truthful before and after: the callback hears Complete while the first byte is missing |
| LocalFile.CompletedIffBeginning | src/dflt/default_http_client.rs:204-286 | a completed download has kept what was in its file and got the rest, so the file is the resource iff it had a beginning of it |
| Stopping.StoppedWorkerEnds | src/inner/exec_impl/retry.rs:57-136 | once its token is cancelled a worker takes at most three more steps, begins no transfer call, and without a panic ends with Canceled, unless its last chunk had been moved or an answer is still out |
| Stopping.AnswerDecides | src/inner/exec_impl/retry.rs:71-106 | the answer to the chunk in flight decides how a stopped worker ends: Completed if it was the last, Failed if it failed for good, else Canceled |

## Left out

- CanceledOnlyByCancel: needs that no key is enqueued again before its old worker is drained; the code does not provide this itself.
- ActiveOrToldToStop: needs the same; `LastEventLoses` says exactly which events lose a worker when it is not so.
- CloseEndsEverything: needs the same, see `UnstoppableWorker`.
- ResumeNeverGoesBack: needs that the task is safe with the offset it inherits; the code does not provide this itself.
- ProgressNeverGoesBack: needs the same; `ShownRightlyIffSafe` shows that nothing less will do.
- ShownRightlyIffSafe: for a download, needs that downloads have a slot at all and that the resource's length fits in 64 bits; else it never reports.
- CompleteMeansStored: needs a server that forgets nothing; `CompleteIffNothingSkipped` is the exact condition for one run with any other, with a source file that does not change and no early file id.
- CompleteMeansCopied: needs a file that begins like the resource and belongs to no other download; for a single download without that, see `CompletedIffBeginning`.
- UploadTilesTheSource: needs that the server names a finished file only for the chunk that reaches the end.
- FreshWorkerRuns: counts steps, it does not promise that a reply ever comes; fairness of network and timers is not modelled.
- TransferChunkWithRetry: counts a delay in full even when a cancellation cuts it short.
- A panic of a worker is a step that only ends it with a Failed event; a panic half-way through a file write is not modelled.
- The events of one worker arrive in order and none is lost; channel capacity and the priority of commands over events are not modelled.
- The two file-handle slots of a task are one flag, since a task has one direction.
- A cancellation token's flag is membership in a set; a worker sees it whenever it looks.
- A successful write is durable; a failed one leaves an arbitrary part of the chunk. Only the worker of a download writes its file.
- reqwest, TLS, multipart forms, other headers and JSON decoding are foreign calls; their results are arbitrary replies. Custom resumable-upload and resumable-download traits are not modelled.
- The snapshot command, progress listeners, callback panics, the client's open and closed flag, logging, builders and MD5 signing would only add easy members.
- The progress ratio that `emit_status` computes in floating point is kept as the pair of transferred and total bytes.
- The thread start-up handshake and the reply channels of commands are reduced to the result each command returns.
