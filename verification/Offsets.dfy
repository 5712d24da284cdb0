/**
 The offsets that the scheduler remembers, against what its workers have really done: progress
 reports arrive late, runs end early, and a resumed run starts from what was remembered.
 */
module Offsets {
  import opened Basics
  import opened SchedulerState
  import opened Invariants
  import opened Runs
  import opened HttpClient
  import opened Worker
  import opened WorkerSafety
  import opened Protocol
  import opened System

  // ---- one run ----

  /** How many of a run's events are progress reports; only its last event may be another one. */
  function Reports(log: seq<WorkerEvent>): nat {
    if log != [] && EndsWorker(log[|log| - 1]) then |log| - 1 else |log|
  }

  /** The offset once all reports after the first `handled` events have arrived. */
  function Upcoming(log: seq<WorkerEvent>, handled: nat, offset: u64): u64 {
    var n := Reports(log);
    if handled < n && log[n - 1].Progress? then log[n - 1].nextOffset else offset
  }

  ghost predicate EndsCanceled(log: seq<WorkerEvent>) {
    log != [] && log[|log| - 1].Canceled?
  }

  /** The least that a transfer which stands at `position` can report next. */
  function Soon(position: int, total: int): int {
    if position < total then position + 1 else position
  }

  /**
   No report of a run falls behind the remembered offset of its key. Once the task has reported anything (`own`), what
   a download has reported is its file's length; before that, the offset was inherited and its first report reaches it.
   */
  ghost predicate RunOffset(w: Worker, log: seq<WorkerEvent>, handled: nat, offset: u64, own: bool,
                            file: Option<seq<byte>>, resource: seq<byte>)
  {
    var total, length := Total(w.task, resource), |TaskIo(file, w.open).Content()|;
    && handled <= |log| && offset <= total
    && (forall i :: handled <= i < |log| && log[i].Progress? ==> offset <= log[i].nextOffset <= total)
    && (forall i :: handled <= i < |log| && log[i].Completed? ==> log[i].totalSize == total)
    && (w.phase.Preparing? && w.task.direction == Upload ==> offset <= w.phase.start)
    && (InLoop(w.phase) ==> offset <= Soon(w.phase.offset, total))
    && (w.phase.Got? ==> offset <= w.phase.outcome.nextOffset)
    && (IsDownload(w.task) && (w.phase.Preparing? || InLoop(w.phase) || (w.phase.Over? && EndsCanceled(log))) ==>
          if own || handled < Reports(log) then Upcoming(log, handled, offset) == length
          else offset <= Soon(length, total))
  }

  lemma PrepareKeepsOffset(w: Worker, file: Option<seq<byte>>, env: PrepareEnv, resource: seq<byte>,
                           handled: nat, offset: u64, own: bool)
    requires w.phase.Preparing? && WorkerOk(w, file, resource) && HonestHead(env.head, resource)
    requires RunOffset(w, [], handled, offset, own, file, resource)
    ensures var (w', file', ev) := Next(w, file, Prepared(env));
            RunOffset(w', ev, handled, offset, own, file', resource)
  {
    hide HonestHead;
    StepKeepsOk(w, file, Prepared(env), resource);
  }

  lemma EndKeepsOffset(w: Worker, w': Worker, e: WorkerEvent, file: Option<seq<byte>>, file': Option<seq<byte>>,
                       resource: seq<byte>,
                       log: seq<WorkerEvent>, handled: nat, offset: u64, own: bool)
    requires LogOk(w, log) && !w.phase.Over? && EndsWorker(e) && (e.Canceled? ==> InLoop(w.phase) && file' == file)
    requires RunOffset(w, log, handled, offset, own, file, resource)
    requires e.Completed? ==> e.totalSize == Total(w.task, resource)
    requires w'.phase.Over? && w'.task == w.task
    ensures RunOffset(w', log + [e], handled, offset, own, file', resource)
  {
    hide Increasing, UpTo;
  }

  lemma FinishedTotal(w: Worker, file: Option<seq<byte>>, resource: seq<byte>)
    requires WorkerOk(w, file, resource)
    ensures w.phase.Finishing? ==> w.phase.total == Total(w.task, resource)
  {}

  lemma LoopTotal(w: Worker, file: Option<seq<byte>>, resource: seq<byte>)
    requires WorkerOk(w, file, resource)
    ensures InLoop(w.phase) ==> w.phase.offset <= w.phase.total == Total(w.task, resource)
  {}

  /** A step of the loop that neither moves data nor reports anything. */
  lemma WaitKeepsOffset(w: Worker, w': Worker, file: Option<seq<byte>>, resource: seq<byte>,
                        log: seq<WorkerEvent>, handled: nat, offset: u64, own: bool)
    requires InLoop(w.phase) && InLoop(w'.phase) && w'.phase.offset == w.phase.offset && w'.task == w.task
    requires RunOffset(w, log, handled, offset, own, file, resource)
    ensures RunOffset(w', log, handled, offset, own, file, resource)
  {}

  lemma AttemptKeepsOffset(w: Worker, w': Worker, file: Option<seq<byte>>, file': Option<seq<byte>>,
                           resource: seq<byte>,
                           log: seq<WorkerEvent>, handled: nat, offset: u64, own: bool)
    requires w.phase.Sending? && WorkerOk(w, file, resource) && WorkerOk(w', file', resource) && w'.task == w.task
    requires InLoop(w'.phase) ==> w'.phase.offset == w.phase.offset
    requires !InLoop(w'.phase) ==>
               w'.phase.Got? && Soon(w.phase.offset, Total(w.task, resource)) <= w'.phase.outcome.nextOffset
    requires RunOffset(w, log, handled, offset, own, file, resource)
    ensures RunOffset(w', log, handled, offset, own, file', resource)
  {}

  lemma ReportedKeepsOffset(w: Worker, w': Worker, e: WorkerEvent, file: Option<seq<byte>>, resource: seq<byte>,
                            log: seq<WorkerEvent>, handled: nat, offset: u64, own: bool)
    requires w.phase.Got? && WorkerOk(w, file, resource) && w' == w.(phase := w'.phase)
    requires WorkerOk(w', file, resource) && AllProgress(log)
    requires if w.phase.outcome.done then w'.phase.Finishing? else w'.phase == Looping(w.phase.outcome.nextOffset,
                                                                                       w.phase.total)
    requires e == Progress(w.key, w.phase.outcome.nextOffset, w.phase.total)
    requires RunOffset(w, log, handled, offset, own, file, resource)
    ensures RunOffset(w', log + [e], handled, offset, own, file, resource)
  {}

  lemma WorkKeepsOffset(w: Worker, file: Option<seq<byte>>, i: Input, resource: seq<byte>, log: seq<WorkerEvent>,
                        handled: nat, offset: u64, own: bool)
    requires Fits(w, i) && HonestInput(i, resource) && WorkerOk(w, file, resource) && LogOk(w, log)
    requires RunOffset(w, log, handled, offset, own, file, resource)
    ensures var (w', file', ev) := Next(w, file, i); RunOffset(w', log + ev, handled, offset, own, file', resource)
  {
    hide UploadChunk, DownloadChunk, HonestGet, HonestHead, Prepare, Increasing, UpTo, AllProgress, WorkerOk,
         RunOffset, Reports;
    var (w', file', ev) := Next(w, file, i);
    StepKeepsOk(w, file, i, resource);
    WhoWrites(w, file, i);
    assert log + [] == log;
    if ev != [] && EndsWorker(ev[0]) {
      assert log + ev == log + [ev[0]];
      FinishedTotal(w, file, resource);
      EndKeepsOffset(w, w', ev[0], file, file', resource, log, handled, offset, own);
    } else if i.Prepared? {
      PrepareKeepsOffset(w, file, i.prepare, resource, handled, offset, own);
      assert log == [] && [] + ev == ev;
    } else if i.Attempted? {
      AttemptKeepsOk(w, file, i.chunk, resource);
      LoopTotal(w, file, resource);
      AttemptKeepsOffset(w, w', file, file', resource, log, handled, offset, own);
    } else if i.Reported? {
      ReportedKeepsOffset(w, w', ev[0], file, resource, log, handled, offset, own);
    } else {
      WaitKeepsOffset(w, w', file, resource, log, handled, offset, own);
    }
  }

  /** A report arrives. */
  lemma ReportKeepsOffset(w: Worker, log: seq<WorkerEvent>, handled: nat, offset: u64, own: bool,
                          file: Option<seq<byte>>, resource: seq<byte>)
    requires LogOk(w, log) && RunOffset(w, log, handled, offset, own, file, resource)
    requires handled < |log| && log[handled].Progress?
    ensures RunOffset(w, log, handled + 1, log[handled].nextOffset, true, file, resource)
    ensures offset <= log[handled].nextOffset
  {}

  /** A stop is acknowledged: everything before it has been reported. */
  lemma StopLeavesOffset(w: Worker, log: seq<WorkerEvent>, handled: nat, offset: u64, own: bool,
                         file: Option<seq<byte>>, resource: seq<byte>)
    requires LogOk(w, log) && RunOffset(w, log, handled, offset, own, file, resource)
    requires handled < |log| && log[handled].Canceled? && IsDownload(w.task)
    ensures var length := |TaskIo(file, w.open).Content()|;
            if own then offset == length else offset <= Soon(length, |resource|)
  {}

  // ---- the scheduler's side ----

  /** An offset that a download with a file of this length may be announced with. */
  predicate Reaches(t: InnerTask, offset: u64, length: nat, resource: seq<byte>) {
    offset <= Total(t, resource) && (IsDownload(t) ==> offset <= Soon(length, |resource|))
  }

  /** What is remembered for a key, against its run if it has one, else against its file. */
  ghost predicate KeyOffset(t: InnerTask, run: Option<Worker>, log: seq<WorkerEvent>, handled: nat, offset: u64,
                            own: bool, file: Option<seq<byte>>, resource: seq<byte>)
  {
    var length := |TaskIo(file, false).Content()|;
    && offset <= Total(t, resource)
    && (if run.Some? then run.value.task == t && RunOffset(run.value, log, handled, offset, own, file, resource)
        else if own && IsDownload(t) then offset == length
        else Reaches(t, offset, length, resource))
  }

  /** The state of key `k` if the scheduler's state were `s`. */
  ghost predicate OffsetOk(sys: Sys, s: Sched, k: Key, own: bool, remote: Resources)
    requires k in s.groups && |sys.workers| == |sys.logs| == |sys.handled|
  {
    var t := s.groups[k].leader;
    && (k in s.active ==> s.active[k] < |sys.workers|)
    && KeyOffset(t, if k in s.active then Some(sys.workers[s.active[k]]) else None,
                 if k in s.active then sys.logs[s.active[k]] else [],
                 if k in s.active then sys.handled[s.active[k]] else 0,
                 s.Offset(k), own, FileAt(sys.files, t.filePath), remote(t.url))
  }

  /**
   What an accepted task needs, and all it needs: the offset that it inherits is within its total and, if it is a
   download, no more than its first report will show at the least.
   */
  predicate Safe(t: InnerTask, offset: u64, files: map<string, seq<byte>>, remote: Resources) {
    Reaches(t, offset, |OnDisk(files, t.filePath)|, remote(t.url))
  }

  /** Whether a step delivers a report about key `k`. */
  predicate ReportsOn(sys: Sys, step: Step, k: Key) {
    && step.Deliver? && step.r < |sys.logs| && step.r < |sys.handled| && sys.handled[step.r] < |sys.logs[step.r]|
    && sys.logs[step.r][sys.handled[step.r]].key == k && sys.logs[step.r][sys.handled[step.r]].Progress?
  }

  // ---- the start loop ----

  /** Where the token of `k` comes from: it was there, or it is the token of a run just started for `k`. */
  ghost predicate TokenFrom(s: Sched, s': Sched, k: Key) {
    if k in s.active then k in s'.active && s'.active[k] == s.active[k]
    else k in s'.active ==>
      && k in s.groups && |s.spawned| <= s'.active[k] < |s'.spawned|
      && s'.spawned[s'.active[k]] == Run(k, s.groups[k].leader, s.Offset(k))
  }

  lemma ExamineTokens(s: Sched, key: Key, k: Key)
    ensures TokenFrom(s, s.Examine(key), k)
    ensures s.Examine(key).groups == s.groups && s.Examine(key).offsets == s.offsets
    ensures s.spawned <= s.Examine(key).spawned
  {
    hide CountIn;
  }

  lemma TokensChain(s: Sched, s1: Sched, s2: Sched, k: Key)
    requires TokenFrom(s, s1, k) && TokenFrom(s1, s2, k)
    requires s1.groups == s.groups && s1.offsets == s.offsets && s.spawned <= s1.spawned <= s2.spawned
    ensures TokenFrom(s, s2, k)
  {}

  lemma {:induction false} PassTokens(s: Sched, rest: seq<Key>, k: Key)
    ensures TokenFrom(s, s.ExamineAll(rest), k)
    decreases |rest|
  {
    hide TokenFrom, Sched.Examine;
    if rest == [] {
      SameTokens(s, k);
    } else {
      var s1 := s.Examine(rest[0]);
      ExamineTokens(s, rest[0], k);
      PassTokens(s1, rest[1..], k);
      PassStartsLeaders(s1, rest[1..]);
      TokensChain(s, s1, s1.ExamineAll(rest[1..]), k);
    }
  }

  lemma SameTokens(s: Sched, k: Key)
    ensures TokenFrom(s, s, k)
  {}

  lemma NewRunOffset(run: Run, offset: u64, own: bool, file: Option<seq<byte>>, resource: seq<byte>)
    requires KeyOffset(run.task, None, [], 0, offset, own, file, resource) && run.start == offset
    ensures KeyOffset(run.task, Some(NewWorker(run.key, run.task, run.start)), [], 0, offset, own, file, resource)
  {}

  lemma StartKeepsOffset(sys: Sys, b: Sched, k: Key, own: bool, remote: Resources)
    requires Shape(sys) && b.spawned == sys.sched.spawned && k in b.groups && OffsetOk(sys, b, k, own, remote)
    ensures var s := b.TryStart(); var sys' := Spawn(sys, s);
            && Shape(sys') && sys'.sched == s && s.groups == b.groups && s.offsets == b.offsets
            && OffsetOk(sys', s, k, own, remote)
  {
    hide KeyOffset, NewWorker, Sched.ExamineAll, Spawn, StartedFromGroups;
    var b0 := b.(queued := [], queuedSet := {});
    var s := b.TryStart();
    TryStartStartsLeaders(b);
    PassTokens(b0, b.queued, k);
    SpawnShape(sys, s);
    if k in b.active {
      SpawnKeepsRuns(sys, s, b.active[k]);
    } else if k in s.active {
      SpawnedWorker(sys, s, s.active[k]);
      var t := b.groups[k].leader;
      NewRunOffset(s.spawned[s.active[k]], b.Offset(k), own, FileAt(sys.files, t.filePath), remote(t.url));
    }
    SpawnSched(sys, s);
  }

  // ---- commands ----

  /** `OffsetOk` looks at the events of the key's own run only. */
  lemma LookAlike(sys: Sys, sys1: Sys, b: Sched, c: Sched, k: Key, own: bool,
                  remote: Resources)
    requires |sys.workers| == |sys.logs| == |sys.handled| && sys1 == sys.(handled := sys1.handled)
    requires |sys1.handled| == |sys.handled|
    requires k in b.groups && k in c.groups && b.groups[k] == c.groups[k] && OffsetOk(sys, b, k, own, remote)
    requires (k in b.active <==> k in c.active) && b.Offset(k) == c.Offset(k)
    requires k in b.active ==> b.active[k] == c.active[k] && sys1.handled[b.active[k]] == sys.handled[b.active[k]]
    ensures OffsetOk(sys1, c, k, own, remote)
  {
    hide KeyOffset;
  }

  lemma AdmittedOffset(sys: Sys, b: Sched, k: Key, remote: Resources)
    requires Shape(sys) && k in b.groups && k !in b.active
    requires Safe(b.groups[k].leader, b.Offset(k), sys.files, remote)
    ensures OffsetOk(sys, b, k, false, remote)
  {}

  lemma CommandFields(s: Sched, a: Action)
    requires Top(s) && Allowed(s, a) && !a.Event?
    ensures var b := Body(s, a);
            && (forall k :: k in b.groups ==>
                  if k in s.groups then b.groups[k] == s.groups[k]
                  else a.Enqueue? && k == a.task.DedupeKey() && b.groups[k].leader == a.task && k !in b.active)
            && b.offsets == (if a.Close? then map[] else s.offsets)
            && (a.Close? ==> b.groups == map[])
            && (forall k :: k in b.groups ==>
                  if k in s.active then k in b.active && b.active[k] == s.active[k] else k !in b.active)
  {
    hide QueueMirror, Identity, Tokens, Bounded, WorkConserving;
    hide Sched.PauseGroup, Sched.ResumeGroup, Sched.CancelGroup, Sched.Close, Sched.Admit;
    match a
    case Enqueue(task) => AdmitFields(s, task);
    case Pause(id) =>
      if id in s.taskIdToDedupe {
        PauseFields(s, s.taskIdToDedupe[id]);
      }
    case Resume(id) =>
      if id in s.taskIdToDedupe {
        ResumeFields(s, s.taskIdToDedupe[id]);
      }
    case Cancel(id) =>
      if id in s.taskIdToDedupe {
        CancelFields(s, s.taskIdToDedupe[id]);
      }
    case Close(order) => CloseFields(s, order);
  }

  // ---- deliveries ----

  lemma ActiveIsOwn(sys: Sys, k: Key, remote: Resources)
    requires SysOk(sys, remote) && k in sys.sched.active
    ensures k in sys.sched.groups
    ensures var r := sys.sched.active[k];
            && r in Und(sys) && r < |sys.workers| && sys.workers[r].key == k
            && sys.workers[r].task == sys.sched.groups[k].leader
            && LogOk(sys.workers[r], sys.logs[r])
            && WorkerOk(sys.workers[r], FileAt(sys.files, sys.workers[r].task.filePath),
                        remote(sys.workers[r].task.url))
  {
    hide GroupsReady, CountIn, WorkerOk, LogOk, CopiedOk, QueueMirror, Identity;
    var r := sys.sched.active[k];
    assert RunOk(sys.workers[r], sys.logs[r], sys.handled[r], r in sys.sched.cancelled,
                 FileAt(sys.files, sys.workers[r].task.filePath), remote(sys.workers[r].task.url));
  }

  lemma LiveRunIsActive(sys: Sys, r: nat, remote: Resources)
    requires SysOk(sys, remote) && r in Und(sys) && sys.workers[r].key in sys.sched.groups
    ensures sys.workers[r].key in sys.sched.active && sys.sched.active[sys.workers[r].key] == r
  {
    hide RunsOk, GroupsReady, Core, SeparateFiles;
    assert OwnsOrOrphan(sys.sched.groups, sys.sched.active, sys.sched.spawned[r].key, r);
  }

  lemma OwnReportKeepsOffset(sys: Sys, r: nat, k: Key, own: bool, remote: Resources)
    requires SysOk(sys, remote) && k in sys.sched.groups && OffsetOk(sys, sys.sched, k, own, remote)
    requires k in sys.sched.active && sys.sched.active[k] == r
    requires sys.handled[r] < |sys.logs[r]| && sys.logs[r][sys.handled[r]].Progress?
    ensures var next := sys.logs[r][sys.handled[r]].nextOffset;
            && OffsetOk(sys.(handled := sys.handled[r := sys.handled[r] + 1]),
                        sys.sched.(offsets := sys.sched.offsets[k := next]), k, true, remote)
            && sys.sched.Offset(k) <= next
  {
    hide Top, Ordered, RunsOk, GroupsReady, Und, RunOffset, LogOk, WorkerOk;
    var s, t := sys.sched, sys.sched.groups[k].leader;
    var log, file := sys.logs[r], FileAt(sys.files, t.filePath);
    ActiveIsOwn(sys, k, remote);
    ReportKeepsOffset(sys.workers[r], log, sys.handled[r], s.Offset(k), own, file, remote(t.url));
    ReportInTotal(sys.workers[r], log, sys.handled[r], s.Offset(k), own, file, remote(t.url));
  }

  lemma OwnStopLeavesOffset(sys: Sys, r: nat, k: Key, own: bool, remote: Resources)
    requires SysOk(sys, remote) && k in sys.sched.groups && OffsetOk(sys, sys.sched, k, own, remote)
    requires k in sys.sched.active && sys.sched.active[k] == r
    requires sys.handled[r] < |sys.logs[r]| && sys.logs[r][sys.handled[r]].Canceled?
    ensures OffsetOk(sys.(handled := sys.handled[r := sys.handled[r] + 1]),
                     sys.sched.(active := sys.sched.active - {k}), k, own, remote)
  {
    hide Top, Ordered, RunsOk, GroupsReady, Und, RunOffset, LogOk, WorkerOk;
    var s, t := sys.sched, sys.sched.groups[k].leader;
    ActiveIsOwn(sys, k, remote);
    if IsDownload(t) {
      StopLeavesOffset(sys.workers[r], sys.logs[r], sys.handled[r], s.Offset(k), own, FileAt(sys.files, t.filePath),
                       remote(t.url));
    }
  }

  lemma DeliverKeepsOffset(sys: Sys, r: nat, k: Key, own: bool, remote: Resources)
    requires SysOk(sys, remote) && CanDo(sys, Deliver(r), remote)
    requires k in sys.sched.groups && OffsetOk(sys, sys.sched, k, own, remote)
    requires k in sys.sched.Handle(sys.logs[r][sys.handled[r]]).groups
    ensures var b := sys.sched.Handle(sys.logs[r][sys.handled[r]]);
            && OffsetOk(sys.(handled := sys.handled[r := sys.handled[r] + 1]), b, k,
                        own || ReportsOn(sys, Deliver(r), k), remote)
            && b.spawned == sys.sched.spawned && b.groups[k] == sys.sched.groups[k]
            && sys.sched.Offset(k) <= b.Offset(k)
  {
    hide OffsetOk, Top, Core, Ordered, RunsOk, GroupsReady, Und, Sched.Handle;
    var s, e := sys.sched, sys.logs[r][sys.handled[r]];
    var sys1 := sys.(handled := sys.handled[r := sys.handled[r] + 1]);
    TopIsCore(s);
    HandleFields(s, e);
    EventHasRunKey(sys, r, remote);
    DeliverUnd(sys, r, remote);
    if k == e.key {
      LiveRunIsActive(sys, r, remote);
      OwnDeliveryKeepsOffset(sys, r, k, own, remote);
    } else {
      if k in s.active {
        ActiveIsOwn(sys, k, remote);
        assert sys.workers[r].key == e.key;
      }
      LookAlike(sys, sys1, s, s.Handle(e), k, own, remote);
    }
  }

  /** The delivery is one of the task's own run. */
  lemma OwnDeliveryKeepsOffset(sys: Sys, r: nat, k: Key, own: bool, remote: Resources)
    requires SysOk(sys, remote) && CanDo(sys, Deliver(r), remote)
    requires k in sys.sched.groups && OffsetOk(sys, sys.sched, k, own, remote)
    requires k in sys.sched.active && sys.sched.active[k] == r && sys.logs[r][sys.handled[r]].key == k
    requires k in sys.sched.Handle(sys.logs[r][sys.handled[r]]).groups
    ensures var b := sys.sched.Handle(sys.logs[r][sys.handled[r]]);
            && OffsetOk(sys.(handled := sys.handled[r := sys.handled[r] + 1]), b, k,
                        own || ReportsOn(sys, Deliver(r), k), remote)
            && sys.sched.Offset(k) <= b.Offset(k)
  {
    hide OffsetOk, Top, Core, Ordered, RunsOk, GroupsReady, Und, Sched.Handle;
    var s, e := sys.sched, sys.logs[r][sys.handled[r]];
    var sys1 := sys.(handled := sys.handled[r := sys.handled[r] + 1]);
    TopIsCore(s);
    HandleFields(s, e);
    if e.Progress? {
      OwnReportKeepsOffset(sys, r, k, own, remote);
      LookAlike(sys1, sys1, s.(offsets := s.offsets[k := e.nextOffset]), s.Handle(e), k, true, remote);
    } else {
      OwnStopLeavesOffset(sys, r, k, own, remote);
      LookAlike(sys1, sys1, s.(active := s.active - {k}), s.Handle(e), k, own, remote);
    }
  }

  lemma ReportInTotal(w: Worker, log: seq<WorkerEvent>, handled: nat, offset: u64, own: bool,
                      file: Option<seq<byte>>, resource: seq<byte>)
    requires RunOffset(w, log, handled, offset, own, file, resource) && handled < |log| && log[handled].Progress?
    ensures log[handled].nextOffset <= Total(w.task, resource)
  {}

  // ---- worker steps ----

  lemma UploadIgnoresFile(t: InnerTask, run: Option<Worker>, log: seq<WorkerEvent>, handled: nat, offset: u64,
                          own: bool,
                          file: Option<seq<byte>>, file': Option<seq<byte>>, resource: seq<byte>)
    requires KeyOffset(t, run, log, handled, offset, own, file, resource) && !IsDownload(t)
    ensures KeyOffset(t, run, log, handled, offset, own, file', resource)
  {}

  lemma OwnWorkKeepsOffset(sys: Sys, r: nat, i: Input, k: Key, own: bool, remote: Resources)
    requires SysOk(sys, remote) && CanDo(sys, Work(r, i), remote)
    requires k in sys.sched.active && sys.sched.active[k] == r && k in sys.sched.groups
    requires OffsetOk(sys, sys.sched, k, own, remote)
    ensures OffsetOk(AfterWork(sys, r, i), sys.sched, k, own, remote)
  {
    hide Top, Ordered, RunsOk, GroupsReady, Und, Next, Fits, RunOffset, HonestInput, LogOk, WorkerOk;
    var w, t := sys.workers[r], sys.sched.groups[k].leader;
    ActiveIsOwn(sys, k, remote);
    var file := FileAt(sys.files, t.filePath);
    WorkKeepsOffset(w, file, i, remote(t.url), sys.logs[r], sys.handled[r], sys.sched.Offset(k), own);
    WhoWrites(w, file, i);
    FileStays(w, file, i);
  }

  lemma OtherWorkKeepsOffset(sys: Sys, r: nat, i: Input, k: Key, own: bool, remote: Resources)
    requires SysOk(sys, remote) && CanDo(sys, Work(r, i), remote) && k in sys.sched.groups
    requires OffsetOk(sys, sys.sched, k, own, remote)
    requires !(k in sys.sched.active && sys.sched.active[k] == r)
    ensures OffsetOk(AfterWork(sys, r, i), sys.sched, k, own, remote)
  {
    hide Top, Core, Ordered, RunsOk, GroupsReady, Und, Next, Fits, HonestInput, KeyOffset;
    var t := sys.sched.groups[k].leader;
    TopIsCore(sys.sched);
    HandledAtMost(sys, r, remote);
    WorkFiles(sys, r, i, t.filePath);
    var sys' := AfterWork(sys, r, i);
    if IsDownload(t) && FileAt(sys'.files, t.filePath) != FileAt(sys.files, t.filePath) {
      GroupOfFile(sys, r, k);
      LeaderKey(sys, r, k, remote);
      LiveRunIsActive(sys, r, remote);
      assert false;
    }
    if !IsDownload(t) {
      UploadIgnoresFile(t, if k in sys.sched.active then Some(sys.workers[sys.sched.active[k]]) else None,
                        if k in sys.sched.active then sys.logs[sys.sched.active[k]] else [],
                        if k in sys.sched.active then sys.handled[sys.sched.active[k]] else 0,
                        sys.sched.Offset(k), own, FileAt(sys.files, t.filePath),
                        FileAt(sys'.files, t.filePath), remote(t.url));
    }
  }

  lemma LeaderKey(sys: Sys, r: nat, k: Key, remote: Resources)
    requires SysOk(sys, remote) && k in sys.sched.groups && r in Und(sys)
    requires sys.workers[r].task == sys.sched.groups[k].leader
    ensures sys.workers[r].key == k
  {
    hide RunsOk, GroupsReady, OneWorker, SeparateFiles, CountIn;
  }

  // ---- one step ----

  lemma CommandKeepsOffset(sys: Sys, a: Action, k: Key, own: bool, remote: Resources)
    requires SysOk(sys, remote) && CanDo(sys, Command(a), remote) && !sys.sched.closed
    requires k in sys.sched.groups && OffsetOk(sys, sys.sched, k, own, remote) && k in Body(sys.sched, a).groups
    ensures var b := Body(sys.sched, a);
            && OffsetOk(sys, b, k, own, remote) && b.spawned == sys.sched.spawned
            && b.groups[k] == sys.sched.groups[k] && b.Offset(k) == sys.sched.Offset(k)
  {
    hide OffsetOk, Core, Ordered, RunsOk, GroupsReady, Und, Considerate, Allowed, Body;
    var s := sys.sched;
    CommandFields(s, a);
    BodySpawns(s, a);
    LookAlike(sys, sys, s, Body(s, a), k, own, remote);
  }

  /** One step: a task that lives on keeps its group, and its offset does not decrease. */
  lemma StepKeepsOffset(sys: Sys, step: Step, k: Key, own: bool, remote: Resources)
    requires SysOk(sys, remote) && CanDo(sys, step, remote)
    requires k in sys.sched.groups && OffsetOk(sys, sys.sched, k, own, remote)
    requires k in Do(sys, step, remote).sched.groups
    ensures var sys' := Do(sys, step, remote);
            && Shape(sys') && OffsetOk(sys', sys'.sched, k, own || ReportsOn(sys, step, k), remote)
            && sys'.sched.groups[k] == sys.sched.groups[k] && sys.sched.Offset(k) <= sys'.sched.Offset(k)
  {
    hide Top, Ordered, RunsOk, GroupsReady, OffsetOk, Allowed, Considerate, Fits, HonestInput, Und, Sees;
    hide Sched.TryStart, Sched.Handle, Body, Spawn, AfterWork, Apply;
    match step
    case Command(a) =>
      if sys.sched.closed {
        ClosedStays(sys, a);
      } else {
        ApplyIsBodyThenStart(sys.sched, a);
        TryStartStartsLeaders(Body(sys.sched, a));
        SpawnSched(sys, Apply(sys.sched, a));
        CommandKeepsOffset(sys, a, k, own, remote);
        StartKeepsOffset(sys, Body(sys.sched, a), k, own, remote);
      }
    case Deliver(r) =>
      var e := sys.logs[r][sys.handled[r]];
      var sys1 := sys.(handled := sys.handled[r := sys.handled[r] + 1]);
      DeliverUnd(sys, r, remote);
      ApplyEvent(sys.sched, e);
      TryStartStartsLeaders(sys.sched.Handle(e));
      SpawnSched(sys1, Apply(sys.sched, Event(e)));
      DeliverKeepsOffset(sys, r, k, own, remote);
      StartKeepsOffset(sys1, sys.sched.Handle(e), k, own || ReportsOn(sys, step, k), remote);
    case Work(r, i) =>
      HandledAtMost(sys, r, remote);
      WorkFiles(sys, r, i, sys.workers[r].task.filePath);
      WorkSched(sys, r, i);
      if k in sys.sched.active && sys.sched.active[k] == r {
        OwnWorkKeepsOffset(sys, r, i, k, own, remote);
      } else {
        OtherWorkKeepsOffset(sys, r, i, k, own, remote);
      }
  }

  /** An accepted task that is safe. */
  lemma EnqueueKeepsOffset(sys: Sys, t: InnerTask, remote: Resources)
    requires SysOk(sys, remote) && CanDo(sys, Command(Enqueue(t)), remote) && !sys.sched.closed
    requires t.DedupeKey() !in sys.sched.groups && Safe(t, sys.sched.Offset(t.DedupeKey()), sys.files, remote)
    ensures var sys', key := Do(sys, Command(Enqueue(t)), remote), t.DedupeKey();
            && Shape(sys') && key in sys'.sched.groups && sys'.sched.groups[key].leader == t
            && OffsetOk(sys', sys'.sched, key, false, remote)
  {
    hide Top, Ordered, RunsOk, GroupsReady, OffsetOk, Allowed, Considerate, Und, InnerTask.DedupeKey, Safe;
    hide Sched.TryStart, Spawn, Apply, Sched.Admit;
    var s, key, b := sys.sched, t.DedupeKey(), sys.sched.Admit(t);
    NoWorkerYet(s, key);
    AdmitFields(s, t);
    ApplyIsBodyThenStart(s, Enqueue(t));
    AdmittedOffset(sys, b, key, remote);
    StartKeepsOffset(sys, b, key, false, remote);
  }

  lemma NoWorkerYet(s: Sched, key: Key)
    requires Top(s) && key !in s.groups
    ensures key !in s.active
  {
    hide QueueMirror, Identity, Tokens, Bounded, WorkConserving;
  }

  lemma ClosedStays(sys: Sys, a: Action)
    requires Shape(sys) && sys.sched.closed
    ensures Spawn(sys, Apply(sys.sched, a)) == sys
  {
    SpawnNothing(sys);
  }

  lemma ApplyEvent(s: Sched, e: WorkerEvent)
    requires !s.closed
    ensures Apply(s, Event(e)) == s.Handle(e).TryStart()
  {
    hide Sched.TryStart, Sched.Handle;
  }

  lemma WorkSched(sys: Sys, r: nat, i: Input)
    requires r < |sys.workers| == |sys.logs| && Fits(sys.workers[r], i)
    ensures AfterWork(sys, r, i).sched == sys.sched
  {
    hide Next;
  }

  // ---- frames ----

  ghost predicate Idle(sys: Sys, k: Key)
    requires Shape(sys)
  {
    k !in sys.sched.groups && forall r :: r in Und(sys) ==> sys.workers[r].key != k
  }

  lemma WorkKeys(sys: Sys, r: nat, i: Input)
    requires Shape(sys) && r < |sys.workers| && Fits(sys.workers[r], i)
    ensures var ws := AfterWork(sys, r, i).workers;
            |ws| == |sys.workers| && forall r' :: 0 <= r' < |ws| ==> ws[r'].key == sys.workers[r'].key
  {
    hide Next, Fits;
    WhoWrites(sys.workers[r], FileAt(sys.files, sys.workers[r].task.filePath), i);
  }

  lemma BodySpawns(s: Sched, a: Action)
    requires Core(s)
    ensures Body(s, a).spawned == s.spawned && s.cancelled <= Body(s, a).cancelled
  {
    hide Core, CountIn;
    hide Sched.PauseGroup, Sched.ResumeGroup, Sched.CancelGroup, Sched.Close, Sched.Admit, Sched.Handle;
    match a
    case Enqueue(task) => AdmitFields(s, task);
    case Pause(id) =>
      if id in s.taskIdToDedupe {
        PauseFields(s, s.taskIdToDedupe[id]);
      }
    case Resume(id) =>
      if id in s.taskIdToDedupe {
        ResumeFields(s, s.taskIdToDedupe[id]);
      }
    case Cancel(id) =>
      if id in s.taskIdToDedupe {
        CancelFields(s, s.taskIdToDedupe[id]);
      }
    case Close(order) => CloseFields(s, order);
    case Event(e) => HandleFields(s, e);
  }

  /** No message forgets a worker or takes back a stop signal. */
  lemma ApplyGrows(s: Sched, a: Action)
    requires Top(s) && Allowed(s, a)
    ensures s.spawned <= Apply(s, a).spawned && s.cancelled <= Apply(s, a).cancelled
  {
    hide Top, Core, Body, StartedFromGroups;
    if !s.closed {
      TopIsCore(s);
      BodySpawns(s, a);
      ApplyIsBodyThenStart(s, a);
      TryStartStartsLeaders(Body(s, a));
    }
  }
}
