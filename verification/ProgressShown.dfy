/** The amounts that a task's callback is shown: over a whole run they never go backwards. */
module ProgressShown {
  import opened Basics
  import opened Sequences
  import opened SchedulerState
  import opened Invariants
  import opened Runs
  import opened StatusTrace
  import opened Worker
  import opened WorkerSafety
  import opened Protocol
  import opened System
  import opened Offsets
  import opened EndToEnd

  /** A record without its status: which task it is about, and how much of how much it shows. */
  datatype Shown = Shown(about: TaskId, transferred: u64, total: u64)

  function ShownBy(e: Emission): Shown {
    Shown(e.about, e.transferred, e.total)
  }

  /**
   What `log'` adds to `log` for task `id`: records that show `shown` if the task may hear anything, else
   nothing.
   */
  ghost predicate Tells(log: seq<Emission>, log': seq<Emission>, id: TaskId, hears: bool, shown: Shown) {
    && log <= log'
    && forall i :: |log| <= i < |log'| && log'[i].to == id ==> hears && ShownBy(log'[i]) == shown
  }

  /** What a record about a live task shows if nothing has been reported meanwhile. */
  function Shows(s: Sched, id: TaskId): Shown {
    if id in s.taskIdToDedupe && s.taskIdToDedupe[id] in s.groups
    then Shown(id, s.Offset(s.taskIdToDedupe[id]), s.groups[s.taskIdToDedupe[id]].entry.totalSize)
    else Shown(id, 0, 0)
  }

  predicate Hearing(s: Sched, a: Action, id: TaskId) {
    id in s.taskIdToDedupe || (a.Enqueue? && a.task.taskId == id)
  }

  /** What a message shows to a task: what it reports itself, else what is remembered. */
  function Due(s: Sched, a: Action, id: TaskId): Shown {
    if id in s.taskIdToDedupe then
      if a.Event? && a.event.key == s.taskIdToDedupe[id] && a.event.Progress? then
        Shown(id, a.event.nextOffset, a.event.totalSize)
      else if a.Event? && a.event.key == s.taskIdToDedupe[id] && a.event.Completed? then
        Shown(id, a.event.totalSize, a.event.totalSize)
      else Shows(s, id)
    else if a.Enqueue? then
      var key := a.task.DedupeKey();
      if key in s.groups then Shown(s.groups[key].leader.taskId, 0, s.groups[key].leader.totalSize)
      else Shown(id, s.Offset(key), a.task.totalSize)
    else Shown(id, 0, 0)
  }

  function Amount(s: Sched, id: TaskId): u64 {
    Shows(s, id).transferred
  }

  function DueAmount(s: Sched, a: Action, id: TaskId): u64 {
    Due(s, a, id).transferred
  }

  lemma TellsTwice(a: seq<Emission>, b: seq<Emission>, c: seq<Emission>, id: TaskId, hears: bool, shown: Shown)
    requires Tells(a, b, id, hears, shown) && Tells(b, c, id, hears, shown)
    ensures Tells(a, c, id, hears, shown)
  {}

  lemma SnocTells(log: seq<Emission>, e: Emission, id: TaskId, hears: bool, shown: Shown)
    requires e.to == id ==> hears && ShownBy(e) == shown
    ensures Tells(log, log + [e], id, hears, shown)
  {}

  lemma EntryHears(s: Sched, key: Key, id: TaskId)
    requires Identity(s.groups, s.taskIdToDedupe) && key in s.groups && s.groups[key].entry.taskId == id
    ensures Owns(s, id, key)
  {}

  /** A record about a live group that shows its offset. */
  lemma GroupTells(s: Sched, key: Key, status: Status, id: TaskId)
    requires Identity(s.groups, s.taskIdToDedupe) && key in s.groups
    ensures var entry := s.groups[key].entry;
            Tells(s.emitted, s.Emit(entry, status, s.Offset(key), entry.totalSize).emitted, id,
                  id in s.taskIdToDedupe, Shows(s, id))
  {
    hide Identity, Tells, Sched.Offset;
    var entry := s.groups[key].entry;
    if entry.taskId == id {
      EntryHears(s, key, id);
    }
    SnocTells(s.emitted, Emission(entry.taskId, entry.taskId, status, s.Offset(key), entry.totalSize), id,
              id in s.taskIdToDedupe, Shows(s, id));
  }

  // ---- the start loop ----

  lemma ExamineTells(s: Sched, key: Key, id: TaskId)
    requires Identity(s.groups, s.taskIdToDedupe)
    ensures var s' := s.Examine(key);
            && Tells(s.emitted, s'.emitted, id, id in s.taskIdToDedupe, Shows(s, id))
            && s'.groups == s.groups && s'.taskIdToDedupe == s.taskIdToDedupe && s'.offsets == s.offsets
  {
    hide CountIn, Identity, Tells, Sched.Offset, Shows;
    NothingTold(s.emitted, id, id in s.taskIdToDedupe, Shows(s, id));
    if key in s.groups {
      GroupTells(s, key, Transmission, id);
    }
  }

  lemma {:induction false} PassTells(s: Sched, rest: seq<Key>, id: TaskId)
    requires Identity(s.groups, s.taskIdToDedupe)
    ensures Tells(s.emitted, s.ExamineAll(rest).emitted, id, id in s.taskIdToDedupe, Shows(s, id))
    decreases |rest|
  {
    hide Sched.Examine, Identity, Tells;
    NothingTold(s.emitted, id, id in s.taskIdToDedupe, Shows(s, id));
    if rest != [] {
      ExamineTells(s, rest[0], id);
      PassTells(s.Examine(rest[0]), rest[1..], id);
      TellsTwice(s.emitted, s.Examine(rest[0]).emitted, s.ExamineAll(rest).emitted, id, id in s.taskIdToDedupe,
                 Shows(s, id));
    }
  }

  lemma NothingTold(log: seq<Emission>, id: TaskId, hears: bool, shown: Shown)
    ensures Tells(log, log, id, hears, shown)
  {}

  // ---- the messages ----

  lemma EmitTells(s: Sched, key: Key, status: Status, id: TaskId)
    requires Identity(s.groups, s.taskIdToDedupe)
    ensures Tells(s.emitted, s.EmitIfLive(key, status).emitted, id, id in s.taskIdToDedupe, Shows(s, id))
  {
    hide Identity, Tells, Sched.Offset, Shows;
    NothingTold(s.emitted, id, id in s.taskIdToDedupe, Shows(s, id));
    if key in s.groups {
      GroupTells(s, key, status, id);
    }
  }

  lemma {:induction false} EmitPausedTells(s: Sched, keys: seq<Key>, id: TaskId)
    requires Identity(s.groups, s.taskIdToDedupe)
    ensures Tells(s.emitted, s.EmitPaused(keys).emitted, id, id in s.taskIdToDedupe, Shows(s, id))
    decreases |keys|
  {
    hide Identity, Tells;
    NothingTold(s.emitted, id, id in s.taskIdToDedupe, Shows(s, id));
    if keys != [] {
      var s1 := s.EmitIfLive(keys[0], Status.Paused);
      EmitTells(s, keys[0], Status.Paused, id);
      EmitPausedTells(s1, keys[1..], id);
      TellsTwice(s.emitted, s1.emitted, s.EmitPaused(keys).emitted, id, id in s.taskIdToDedupe, Shows(s, id));
    }
  }

  lemma AdmitTells(s: Sched, task: InnerTask, id: TaskId)
    requires task.taskId !in s.taskIdToDedupe
    ensures Tells(s.emitted, s.Admit(task).emitted, id, task.taskId == id,
                  Shown(id, s.Offset(task.DedupeKey()), task.totalSize))
  {
    hide CountIn, InnerTask.DedupeKey, Sched.Offset;
  }

  lemma RejectTells(s: Sched, task: InnerTask, id: TaskId)
    requires task.DedupeKey() in s.groups
    ensures var leader := s.groups[task.DedupeKey()].leader;
            Tells(s.emitted, s.Reject(task).emitted, id, task.taskId == id, Shown(leader.taskId, 0, leader.totalSize))
  {}

  lemma PauseTells(s: Sched, key: Key, id: TaskId)
    requires Identity(s.groups, s.taskIdToDedupe)
    ensures Tells(s.emitted, s.PauseGroup(key).emitted, id, id in s.taskIdToDedupe, Shows(s, id))
  {
    hide Keep, Elems, CountIn, Identity, Tells, Sched.EmitIfLive;
    var s1 := s.Stop(key).Unqueue(key);
    EmitTells(s1.(pausedSet := s1.pausedSet + {key}), key, Status.Paused, id);
  }

  lemma ResumeTells(s: Sched, key: Key, id: TaskId)
    requires Identity(s.groups, s.taskIdToDedupe)
    ensures Tells(s.emitted, s.ResumeGroup(key).0.emitted, id, id in s.taskIdToDedupe, Shows(s, id))
  {
    hide CountIn, Identity, Tells, Sched.EmitIfLive;
    NothingTold(s.emitted, id, id in s.taskIdToDedupe, Shows(s, id));
    EmitTells(s.(pausedSet := s.pausedSet - {key}), key, Pending, id);
  }

  lemma CancelTells(s: Sched, key: Key, id: TaskId)
    requires Identity(s.groups, s.taskIdToDedupe)
    ensures Tells(s.emitted, s.CancelGroup(key).emitted, id, id in s.taskIdToDedupe, Shows(s, id))
  {
    hide Keep, Elems, CountIn, Identity, Tells, Sched.Offset, Shows;
    NothingTold(s.emitted, id, id in s.taskIdToDedupe, Shows(s, id));
    CancelEmits(s, key);
    if key in s.groups {
      GroupTells(s, key, Status.Canceled, id);
    }
  }

  lemma HandleTells(s: Sched, e: WorkerEvent, id: TaskId)
    requires Identity(s.groups, s.taskIdToDedupe)
    ensures Tells(s.emitted, s.Handle(e).emitted, id, id in s.taskIdToDedupe, Due(s, Event(e), id))
  {
    hide CountIn, Identity, Tells;
    var v := Due(s, Event(e), id);
    NothingTold(s.emitted, id, id in s.taskIdToDedupe, v);
    if e.key in s.groups && s.Handle(e).emitted != s.emitted {
      if s.groups[e.key].entry.taskId == id {
        EntryHears(s, e.key, id);
      }
      SnocTells(s.emitted, s.Handle(e).emitted[|s.emitted|], id, id in s.taskIdToDedupe, v);
    }
  }

  lemma CloseTells(s: Sched, order: seq<Key>, id: TaskId)
    requires Identity(s.groups, s.taskIdToDedupe)
    ensures Tells(s.emitted, s.Close(order).emitted, id, id in s.taskIdToDedupe, Shows(s, id))
  {
    hide Identity, Tells, Elems;
    EmitPausedTells(s.(cancelled := s.cancelled + s.active.Values), order, id);
  }

  lemma IdentityOf(s: Sched)
    requires Core(s)
    ensures Identity(s.groups, s.taskIdToDedupe)
  {}

  lemma BodyTells(s: Sched, a: Action, id: TaskId)
    requires Core(s) && Allowed(s, a)
    ensures Tells(s.emitted, Body(s, a).emitted, id, Hearing(s, a, id), Due(s, a, id))
  {
    hide Core, Identity, Tells, CountIn;
    hide Sched.Admit, Sched.Reject, Sched.PauseGroup, Sched.ResumeGroup, Sched.CancelGroup, Sched.Close, Sched.Handle;
    IdentityOf(s);
    NothingTold(s.emitted, id, Hearing(s, a, id), Due(s, a, id));
    match a
    case Enqueue(task) =>
      if task.DedupeKey() in s.groups {
        RejectTells(s, task, id);
        var leader := s.groups[task.DedupeKey()].leader;
        Widen(s.emitted, s.Reject(task).emitted, id, task.taskId == id, Shown(leader.taskId, 0, leader.totalSize),
              Hearing(s, a, id), Due(s, a, id));
      } else {
        AdmitTells(s, task, id);
        Widen(s.emitted, s.Admit(task).emitted, id, task.taskId == id,
              Shown(id, s.Offset(task.DedupeKey()), task.totalSize), Hearing(s, a, id), Due(s, a, id));
      }
    case Pause(target) =>
      if target in s.taskIdToDedupe {
        PauseTells(s, s.taskIdToDedupe[target], id);
      }
    case Resume(target) =>
      if target in s.taskIdToDedupe {
        ResumeTells(s, s.taskIdToDedupe[target], id);
      }
    case Cancel(target) =>
      if target in s.taskIdToDedupe {
        CancelTells(s, s.taskIdToDedupe[target], id);
      }
    case Close(order) => CloseTells(s, order, id);
    case Event(e) => HandleTells(s, e, id);
  }

  lemma Widen(log: seq<Emission>, log': seq<Emission>, id: TaskId, h: bool, v: Shown, h': bool, v': Shown)
    requires Tells(log, log', id, h, v) && (h ==> h' && v == v')
    ensures Tells(log, log', id, h', v')
  {}

  /** What a task that lives on is shown is from then on what the scheduler remembers. */
  lemma BodyShows(s: Sched, a: Action, id: TaskId)
    requires Core(s) && Allowed(s, a) && id in Body(s, a).taskIdToDedupe
    ensures Hearing(s, a, id) && Amount(Body(s, a), id) == DueAmount(s, a, id)
    ensures (a.Event? && a.event.Progress?) || Shows(Body(s, a), id) == Due(s, a, id)
  {
    hide Core, Identity, CountIn, Keep, Elems, InnerTask.DedupeKey;
    hide Sched.Admit, Sched.Reject, Sched.PauseGroup, Sched.ResumeGroup, Sched.CancelGroup, Sched.Close, Sched.Handle;
    WhoIsLive(s, a, id);
    IdentityOf(s);
    match a
    case Enqueue(task) =>
      AdmitIds(s, task);
      AdmitFields(s, task);
      if task.DedupeKey() in s.groups {
        RejectOnlyTells(s, task);
      }
    case Pause(target) =>
      if target in s.taskIdToDedupe {
        PauseFields(s, s.taskIdToDedupe[target]);
        PauseIds(s, s.taskIdToDedupe[target]);
      }
    case Resume(target) =>
      if target in s.taskIdToDedupe {
        ResumeFields(s, s.taskIdToDedupe[target]);
        ResumeIds(s, s.taskIdToDedupe[target]);
      }
    case Cancel(target) =>
      if target in s.taskIdToDedupe {
        KnownIdIsLive(s, target);
        CancelFields(s, s.taskIdToDedupe[target]);
        CancelIds(s, s.taskIdToDedupe[target]);
      }
    case Close(order) =>
    case Event(e) => EventShows(s, e, id);
  }

  lemma EventShows(s: Sched, e: WorkerEvent, id: TaskId)
    requires Core(s) && id in s.Handle(e).taskIdToDedupe
    ensures Hearing(s, Event(e), id) && Amount(s.Handle(e), id) == DueAmount(s, Event(e), id)
    ensures e.Progress? || Shows(s.Handle(e), id) == Due(s, Event(e), id)
  {
    hide Core, Identity, CountIn, InnerTask.DedupeKey, Sched.Handle;
    WhoIsLive(s, Event(e), id);
    IdentityOf(s);
    HandleFields(s, e);
    HandleIds(s, e);
    OwnedGroup(s, id);
  }

  lemma RejectOnlyTells(s: Sched, task: InnerTask)
    requires task.DedupeKey() in s.groups
    ensures s.Reject(task).offsets == s.offsets && s.Reject(task).taskIdToDedupe == s.taskIdToDedupe
    ensures s.Reject(task).groups == s.groups
  {}

  lemma OwnedGroup(s: Sched, id: TaskId)
    requires Identity(s.groups, s.taskIdToDedupe)
    ensures id in s.taskIdToDedupe ==> s.taskIdToDedupe[id] in s.groups
  {}

  lemma ReportBody(s: Sched, e: WorkerEvent)
    requires Top(s) && !s.closed && e.Progress?
    ensures Body(s, Event(e)).TryStart() == Body(s, Event(e))
  {
    hide Top, Sched.TryStart, Sched.Handle;
    ReportStartsNothing(s, e);
  }

  /**
   One message and the start loop after it: every record that `id` hears shows what is due, amount and total, and
   is about the task that it should be about; the amount is what is remembered from then on.
   */
  lemma StepTells(s: Sched, a: Action, id: TaskId)
    requires Top(s) && Allowed(s, a) && !s.closed
    ensures var s' := Apply(s, a);
            && Tells(s.emitted, s'.emitted, id, Hearing(s, a, id), Due(s, a, id))
            && (id in s'.taskIdToDedupe ==>
                  Hearing(s, a, id) && Amount(s', id) == DueAmount(s, a, id))
  {
    hide Top, Core, Tells, Body, Hearing, Due, Identity, Sched.ExamineAll;
    TopIsCore(s);
    var b := Body(s, a);
    var b0 := b.(queued := [], queuedSet := {});
    BodyTells(s, a, id);
    BodyKeepsCore(s, a);
    IdentityOf(b);
    ApplyIsBodyThenStart(s, a);
    PassNeverStops(b0, b.queued);
    PassStartsLeaders(b0, b.queued);
    if id in b.taskIdToDedupe {
      BodyShows(s, a, id);
    }
    if a.Event? && a.event.Progress? {
      ReportBody(s, a.event);
      NothingTold(b.emitted, id, Hearing(s, a, id), Due(s, a, id));
    } else {
      PassTells(b0, b.queued, id);
      Widen(b.emitted, b.TryStart().emitted, id, id in b.taskIdToDedupe, Shows(b, id), Hearing(s, a, id),
            Due(s, a, id));
    }
    TellsTwice(s.emitted, b.emitted, b.TryStart().emitted, id, Hearing(s, a, id), Due(s, a, id));
  }

  // ---- one task in the system ----

  /**
   When a worker's report, or its completion, reaches a task, everything the task's callback is shown in that step is
   about the task itself and has the size of what it transfers as its total: the amount reported, or all of it.
   */
  lemma ReportsShowTheTotal(sys: Sys, r: nat, remote: Resources, id: TaskId)
    requires Reachable(sys, remote) && Shape(sys) && CanDo(sys, Deliver(r), remote)
    requires var e := sys.logs[r][sys.handled[r]]; (e.Progress? || e.Completed?) && Owns(sys.sched, id, e.key)
    ensures var e := sys.logs[r][sys.handled[r]];
            && e.key in sys.sched.groups && sys.sched.groups[e.key].leader.taskId == id
            && var t := sys.sched.groups[e.key].leader;
               var total := Total(t, remote(t.url));
               var log, log' := sys.sched.emitted, Do(sys, Deliver(r), remote).sched.emitted;
               forall i :: |log| <= i < |log'| && log'[i].to == id ==>
                 && log'[i].about == id && log'[i].total == total
                 && log'[i].transferred == if e.Completed? then total else e.nextOffset
  {
    hide Reachable, SysOk, Possible, Considerate, Do, Hearing, Apply, Top, Allowed;
    ReachableIsOk(sys, remote);
    StepIndex(sys, Deliver(r), remote);
    var e := sys.logs[r][sys.handled[r]];
    OkIsTop(sys, remote);
    StepIsMessage(sys, Deliver(r), remote);
    EventAtCursor(sys, r, remote);
    OwnedIsLive(sys, remote, id);
    LiveRunIsOwn(sys, r, remote);
    LeaderHasId(sys, remote, id);
    StepTells(sys.sched, Event(e), id);
  }

  /** `Complete` is heard only with everything transferred: amount and total are the task's own size. */
  lemma CompleteShowsAll(sys: Sys, step: Step, remote: Resources, id: TaskId, i: nat)
    requires Reachable(sys, remote) && Shape(sys) && CanDo(sys, step, remote)
    requires Hears(sys, step, remote, id, Complete)
    requires var log' := Do(sys, step, remote).sched.emitted;
             |sys.sched.emitted| <= i < |log'| && log'[i].to == id
    ensures id in sys.sched.taskIdToDedupe && sys.sched.taskIdToDedupe[id] in sys.sched.groups
    ensures var t := sys.sched.groups[sys.sched.taskIdToDedupe[id]].leader;
            var record := Do(sys, step, remote).sched.emitted[i];
            record.about == t.taskId == id && record.transferred == record.total == Total(t, remote(t.url))
  {
    hide Reachable, SysOk, Hears, Possible, Considerate, Do;
    ReachableIsOk(sys, remote);
    HeardDirectly(sys, step, remote, id, Complete);
    NotAnEvent(sys, step, remote);
    StepIndex(sys, step, remote);
    ReportsShowTheTotal(sys, step.r, remote, id);
  }

  /** Everything shown to `id` is within `limit`, and nothing shows less than something before it. */
  ghost predicate RightlyShown(log: seq<Emission>, id: TaskId, limit: nat) {
    && (forall i :: 0 <= i < |log| && log[i].to == id ==> log[i].transferred <= limit)
    && (forall i, j :: 0 <= i < j < |log| && log[i].to == id && log[j].to == id ==>
          log[i].transferred <= log[j].transferred)
  }

  /** Nothing shown to `id` exceeds what is remembered. */
  ghost predicate ShownUpTo(log: seq<Emission>, id: TaskId, amount: u64) {
    forall i :: 0 <= i < |log| && log[i].to == id ==> log[i].transferred <= amount
  }

  ghost predicate HasHeard(log: seq<Emission>, id: TaskId) {
    exists i :: 0 <= i < |log| && log[i].to == id
  }

  /**
   An accepted task over its life and after it: its callback has been shown things rightly and, while it lives, its
   remembered offset is as it should be. `own` says whether it has reported anything.
   */
  ghost predicate Followed(sys: Sys, t: InnerTask, own: bool, remote: Resources) {
    && SysOk(sys, remote) && HasHeard(sys.sched.emitted, t.taskId)
    && RightlyShown(sys.sched.emitted, t.taskId, Total(t, remote(t.url)))
    && (t.taskId in sys.sched.taskIdToDedupe ==> Lives(sys, t, own, remote))
  }

  ghost predicate Lives(sys: Sys, t: InnerTask, own: bool, remote: Resources)
    requires SysOk(sys, remote)
  {
    var key := t.DedupeKey();
    && Owns(sys.sched, t.taskId, key) && key in sys.sched.groups && sys.sched.groups[key].leader == t
    && OffsetOk(sys, sys.sched, key, own, remote)
    && ShownUpTo(sys.sched.emitted, t.taskId, sys.sched.Offset(key))
  }

  lemma TellsRightly(log: seq<Emission>, log': seq<Emission>, id: TaskId, hears: bool, shown: Shown, before: u64,
                     limit: nat)
    requires Tells(log, log', id, hears, shown) && RightlyShown(log, id, limit)
    requires hears ==> ShownUpTo(log, id, before) && before <= shown.transferred <= limit
    ensures RightlyShown(log', id, limit) && (HasHeard(log, id) ==> HasHeard(log', id))
    ensures hears ==> ShownUpTo(log', id, shown.transferred)
  {
    forall i | 0 <= i < |log| ensures log'[i] == log[i] {}
  }

  /** What is due to a live task is never less than what the scheduler remembers for it, nor more than its total. */
  lemma DueGrows(sys: Sys, r: nat, t: InnerTask, own: bool, remote: Resources)
    requires SysOk(sys, remote) && Lives(sys, t, own, remote) && CanDo(sys, Deliver(r), remote)
    ensures Amount(sys.sched, t.taskId)
            <= DueAmount(sys.sched, Event(sys.logs[r][sys.handled[r]]), t.taskId) <= Total(t, remote(t.url))
  {
    hide SysOk, OffsetOk, Und;
    OkIsTop(sys, remote);
    var e, key := sys.logs[r][sys.handled[r]], t.DedupeKey();
    OffsetInTotal(sys, key, own, remote);
    if e.key == key && (e.Progress? || e.Completed?) {
      EventOfRun(sys, r, remote);
      LiveRunIsActive(sys, r, remote);
      OwnReportGrows(sys, r, key, own, remote);
    }
  }

  lemma OffsetInTotal(sys: Sys, k: Key, own: bool, remote: Resources)
    requires SysOk(sys, remote) && k in sys.sched.groups && OffsetOk(sys, sys.sched, k, own, remote)
    ensures sys.sched.Offset(k) <= Total(sys.sched.groups[k].leader, remote(sys.sched.groups[k].leader.url))
  {
    hide Top, Ordered, RunsOk, GroupsReady, RunOffset;
  }

  lemma EventOfRun(sys: Sys, r: nat, remote: Resources)
    requires SysOk(sys, remote) && r < |sys.workers| && sys.handled[r] < |sys.logs[r]|
    ensures r in Und(sys) && sys.logs[r][sys.handled[r]].key == sys.workers[r].key
  {
    hide Top, Ordered, GroupsReady;
    EventHasRunKey(sys, r, remote);
    DeliverUnd(sys, r, remote);
  }

  lemma OwnReportGrows(sys: Sys, r: nat, k: Key, own: bool, remote: Resources)
    requires SysOk(sys, remote) && k in sys.sched.groups && OffsetOk(sys, sys.sched, k, own, remote)
    requires k in sys.sched.active && sys.sched.active[k] == r && sys.handled[r] < |sys.logs[r]|
    ensures var e, t := sys.logs[r][sys.handled[r]], sys.sched.groups[k].leader;
            && (e.Progress? ==> sys.sched.Offset(k) <= e.nextOffset <= Total(t, remote(t.url)))
            && (e.Completed? ==> sys.sched.Offset(k) <= e.totalSize <= Total(t, remote(t.url)))
  {
    hide Top, Ordered, RunsOk, GroupsReady;
  }

  /** A message of an open system: what the task is shown, and whether it is still there. */
  lemma MessageShows(s: Sched, a: Action, t: InnerTask, limit: nat)
    requires Top(s) && Allowed(s, a) && !s.closed && HasHeard(s.emitted, t.taskId)
    requires RightlyShown(s.emitted, t.taskId, limit)
    requires t.taskId in s.taskIdToDedupe ==>
               && ShownUpTo(s.emitted, t.taskId, Amount(s, t.taskId))
               && Amount(s, t.taskId) <= DueAmount(s, a, t.taskId) <= limit
    ensures var s' := Apply(s, a);
            && HasHeard(s'.emitted, t.taskId) && RightlyShown(s'.emitted, t.taskId, limit)
            && (t.taskId in s'.taskIdToDedupe ==>
                  t.taskId in s.taskIdToDedupe && ShownUpTo(s'.emitted, t.taskId, Amount(s', t.taskId)))
  {
    hide Top, RightlyShown, ShownUpTo, Tells, Apply, Shows, Due;
    HeardIsNotFresh(s, a, t.taskId);
    StepTells(s, a, t.taskId);
    TellsRightly(s.emitted, Apply(s, a).emitted, t.taskId, Hearing(s, a, t.taskId), Due(s, a, t.taskId),
                 Amount(s, t.taskId), limit);
  }

  lemma HeardIsNotFresh(s: Sched, a: Action, id: TaskId)
    requires Allowed(s, a) && HasHeard(s.emitted, id)
    ensures Hearing(s, a, id) <==> id in s.taskIdToDedupe
  {}

  /** Commands show what is remembered. */
  lemma CommandDue(s: Sched, a: Action, id: TaskId)
    ensures id in s.taskIdToDedupe && !a.Event? ==> DueAmount(s, a, id) == Amount(s, id)
  {}

  /** Every step of the system follows an accepted task, and while it lives its offset does not decrease. */
  lemma StepKeepsFollowed(sys: Sys, step: Step, t: InnerTask, own: bool, remote: Resources)
    requires Followed(sys, t, own, remote) && CanDo(sys, step, remote)
    ensures var sys', key := Do(sys, step, remote), t.DedupeKey();
            && Followed(sys', t, own || ReportsOn(sys, step, key), remote)
            && (t.taskId in sys'.sched.taskIdToDedupe ==>
                  t.taskId in sys.sched.taskIdToDedupe && sys.sched.Offset(key) <= sys'.sched.Offset(key))
  {
    hide SysOk, OffsetOk, RightlyShown, ShownUpTo, HasHeard, Apply, Considerate, Allowed, Spawn, AfterWork, ReportsOn,
         InnerTask.DedupeKey, Fits, HonestInput;
    OkIsTop(sys, remote);
    StepKeepsSysOk(sys, step, remote);
    StepShows(sys, step, t, own, remote);
    var sys' := Do(sys, step, remote);
    if t.taskId in sys'.sched.taskIdToDedupe {
      StaysOwned(sys, sys', step, t, remote);
      StepKeepsOffset(sys, step, t.DedupeKey(), own, remote);
    }
  }

  lemma StepIsMessage(sys: Sys, step: Step, remote: Resources)
    requires Shape(sys) && Possible(sys, step, remote)
    ensures step.Work? ==> Do(sys, step, remote).sched == sys.sched
    ensures !step.Work? ==>
              && MessageOf(sys, step).Some? && Allowed(sys.sched, MessageOf(sys, step).value)
              && Do(sys, step, remote).sched == Apply(sys.sched, MessageOf(sys, step).value)
    ensures step.Deliver? ==> !sys.sched.closed
  {
    hide Apply, Allowed, Fits, HonestInput, Next;
    match step
    case Command(a) => SpawnSched(sys, Apply(sys.sched, a));
    case Deliver(r) =>
      SpawnSched(sys.(handled := sys.handled[r := sys.handled[r] + 1]), Apply(sys.sched, MessageOf(sys, step).value));
      EventsAllowed(sys.sched, sys.logs[r][sys.handled[r]]);
    case Work(r, i) => WorkSched(sys, r, i);
  }

  lemma EventsAllowed(s: Sched, e: WorkerEvent)
    ensures Allowed(s, Event(e))
  {}

  /** What is due to a live task stays between what it has been shown and its total. */
  lemma DueInRange(sys: Sys, step: Step, t: InnerTask, own: bool, remote: Resources)
    requires SysOk(sys, remote) && Lives(sys, t, own, remote) && CanDo(sys, step, remote) && !step.Work?
    ensures Shape(sys) && MessageOf(sys, step).Some?
    ensures Amount(sys.sched, t.taskId) <= DueAmount(sys.sched, MessageOf(sys, step).value, t.taskId) <= Total(t,
                                                                                                        remote(t.url))
  {
    hide SysOk, OffsetOk, ShownUpTo, Due, InnerTask.DedupeKey, Possible, Considerate;
    OkIsTop(sys, remote);
    OffsetInTotal(sys, t.DedupeKey(), own, remote);
    DeliveredMessage(sys, step, remote);
    if step.Deliver? {
      DueGrows(sys, step.r, t, own, remote);
    } else {
      CommandDue(sys.sched, MessageOf(sys, step).value, t.taskId);
    }
  }

  lemma DeliveredMessage(sys: Sys, step: Step, remote: Resources)
    requires Shape(sys) && Possible(sys, step, remote)
    ensures step.Deliver? ==>
              && step.r < |sys.workers| && sys.handled[step.r] < |sys.logs[step.r]| && MessageOf(sys, step).Some?
              && MessageOf(sys, step).value == Event(sys.logs[step.r][sys.handled[step.r]])
    ensures step.Command? ==> MessageOf(sys, step).Some? && !MessageOf(sys, step).value.Event?
  {}

  /** The part of a step that concerns the callback. */
  lemma StepShows(sys: Sys, step: Step, t: InnerTask, own: bool, remote: Resources)
    requires Followed(sys, t, own, remote) && CanDo(sys, step, remote)
    ensures var s' := Do(sys, step, remote).sched;
            && HasHeard(s'.emitted, t.taskId) && RightlyShown(s'.emitted, t.taskId, Total(t, remote(t.url)))
            && (t.taskId in s'.taskIdToDedupe ==>
                  t.taskId in sys.sched.taskIdToDedupe && ShownUpTo(s'.emitted, t.taskId, Amount(s', t.taskId)))
  {
    hide SysOk, OffsetOk, RightlyShown, ShownUpTo, HasHeard, Apply, Possible, Considerate, Do, InnerTask.DedupeKey, Due,
         Allowed, MessageOf;
    OkIsTop(sys, remote);
    StepIsMessage(sys, step, remote);
    if !step.Work? && sys.sched.closed {
      ClosedIsStuck(sys.sched, MessageOf(sys, step).value);
    } else if !step.Work? {
      if t.taskId in sys.sched.taskIdToDedupe {
        DueInRange(sys, step, t, own, remote);
      }
      MessageShows(sys.sched, MessageOf(sys, step).value, t, Total(t, remote(t.url)));
    }
  }

  /** An id that is known before and after a message owns the same key. */
  lemma IdsKeepKeys(s: Sched, a: Action, id: TaskId)
    requires Top(s) && Allowed(s, a) && id in s.taskIdToDedupe && id in Apply(s, a).taskIdToDedupe
    ensures Apply(s, a).taskIdToDedupe[id] == s.taskIdToDedupe[id]
  {
    hide Top, Core, Apply, Body;
    if s.closed {
      ClosedIsStuck(s, a);
    } else {
      ApplyIsBodyThenStart(s, a);
      PassNeverStops(Body(s, a).(queued := [], queuedSet := {}), Body(s, a).queued);
      BodyKeepsKeys(s, a, id);
    }
  }

  lemma BodyKeepsKeys(s: Sched, a: Action, id: TaskId)
    requires Top(s) && Allowed(s, a) && id in s.taskIdToDedupe && id in Body(s, a).taskIdToDedupe
    ensures Body(s, a).taskIdToDedupe[id] == s.taskIdToDedupe[id]
  {
    hide QueueMirror, Phases, Tokens, Bounded, WorkConserving, InnerTask.DedupeKey;
    hide Sched.Admit, Sched.PauseGroup, Sched.ResumeGroup, Sched.CancelGroup, Sched.Close, Sched.Handle;
    match a
    case Enqueue(task) => AdmitIds(s, task);
    case Pause(target) =>
      if target in s.taskIdToDedupe {
        PauseIds(s, s.taskIdToDedupe[target]);
      }
    case Resume(target) =>
      if target in s.taskIdToDedupe {
        ResumeIds(s, s.taskIdToDedupe[target]);
      }
    case Cancel(target) =>
      if target in s.taskIdToDedupe {
        CancelIds(s, s.taskIdToDedupe[target]);
      }
    case Close(order) => CloseIds(s, order);
    case Event(e) => HandleIds(s, e);
  }

  lemma StaysOwned(sys: Sys, sys': Sys, step: Step, t: InnerTask, remote: Resources)
    requires SysOk(sys, remote) && CanDo(sys, step, remote) && sys' == Do(sys, step, remote) && SysOk(sys', remote)
    requires Owns(sys.sched, t.taskId, t.DedupeKey()) && t.taskId in sys'.sched.taskIdToDedupe
    ensures Owns(sys'.sched, t.taskId, t.DedupeKey()) && t.DedupeKey() in sys'.sched.groups
  {
    hide SysOk, Apply, Possible, Considerate, Do, Allowed, MessageOf, InnerTask.DedupeKey;
    OkIsTop(sys, remote);
    OkIsTop(sys', remote);
    StepIsMessage(sys, step, remote);
    if !step.Work? {
      IdsKeepKeys(sys.sched, MessageOf(sys, step).value, t.taskId);
    }
    TopIsCore(sys'.sched);
    IdentityOf(sys'.sched);
    OwnedGroup(sys'.sched, t.taskId);
  }
}
