/**
 The offset that a cancelled task leaves behind for the next task with its key: exactly when there is one, what it
 is, and that the next task is announced with it.
 */
module Leftovers {
  import opened Basics
  import opened SchedulerState
  import opened Invariants
  import opened Runs
  import opened StatusTrace
  import opened HttpClient
  import opened Worker
  import opened WorkerSafety
  import opened Protocol
  import opened System
  import opened Offsets
  import opened EndToEnd
  import opened ProgressShown
  import opened Orphans

  /** What has become of a key, told from commands and reports alone, without a look at the scheduler's offsets. */
  datatype Life =
    | Gone                                     // no task, nothing left over
    | Alive(reported: Option<u64>)             // a task, and its last report
    | Left(offset: u64)                        // the task was cancelled while it had no worker

  /** A new task inherits what was left over. */
  function Admitted(l: Life): Life {
    Alive(if l.Left? then Some(l.offset) else None)
  }

  /** Cancelled with a worker: nothing stays. Cancelled without one: the last report stays, if there was one. */
  function CancelledIn(l: Life, active: bool): Life {
    if !active && l.Alive? && l.reported.Some? then Left(l.reported.value) else Gone
  }

  function Reported(l: Life, e: WorkerEvent): Life {
    match e
    case Progress(_, nextOffset, _) => if l.Alive? then Alive(Some(nextOffset)) else l
    case Completed(_, _) => Gone
    case Failed(_, _) => Gone
    case Canceled(_) => l   // a pause has come to rest, or the task is gone already
  }

  function NextLife(l: Life, sys: Sys, step: Step, k: Key): Life
    requires step.Deliver? ==> step.r < |sys.logs| && step.r < |sys.handled| && sys.handled[step.r] < |sys.logs[step.r]|
  {
    match step
    case Command(a) =>
      if sys.sched.closed then l
      else if a.Enqueue? && a.task.DedupeKey() == k && k !in sys.sched.groups then Admitted(l)
      else if a.Cancel? && Owns(sys.sched, a.id, k) then CancelledIn(l, k in sys.sched.active)
      else if a.Close? then Gone
      else l
    case Deliver(r) =>
      var e := sys.logs[r][sys.handled[r]];
      if e.key == k then Reported(l, e) else l
    case Work(_, _) => l
  }

  /** The life of a key agrees with the scheduler. */
  ghost predicate LifeOk(sys: Sys, l: Life, k: Key)
    requires Shape(sys)
  {
    var left := if k in sys.sched.offsets then Some(sys.sched.offsets[k]) else None;
    if k in sys.sched.groups then l == Alive(left)
    else if Idle(sys, k) then l == if left.Some? then Left(left.value) else Gone
    else l == Gone
  }

  /** Old runs stay drained or undrained; new ones belong to live keys. */
  lemma SpawnKeepsIdle(sys: Sys, b: Sched, k: Key)
    requires Shape(sys) && b.spawned == sys.sched.spawned && k !in b.groups
    ensures var sys' := Spawn(sys, b.TryStart());
            && Shape(sys') && sys'.sched == b.TryStart() && sys'.sched.groups == b.groups
            && sys'.sched.offsets == b.offsets
            && (Idle(sys', k) <==> forall r :: r in Und(sys) ==> sys.workers[r].key != k)
  {
    hide Sched.TryStart, Undrained, Spawn;
    var s := b.TryStart();
    TryStartStartsLeaders(b);
    SpawnShape(sys, s);
    SpawnSched(sys, s);
    var sys' := Spawn(sys, s);
    forall r | r in Und(sys) ensures r in Und(sys') && sys'.workers[r].key == sys.workers[r].key {
      SpawnKeepsRuns(sys, s, r);
    }
    forall r | r in Und(sys') && r !in Und(sys) ensures sys'.workers[r].key != k {
      assert |sys.sched.spawned| <= r < |s.spawned|;
    }
  }

  lemma IdleIs(sys: Sys, k: Key)
    requires Shape(sys)
    ensures Idle(sys, k) <==> k !in sys.sched.groups && forall r :: r in Und(sys) ==> sys.workers[r].key != k
  {}

  /** A live key's undrained run is its active one, so a live key without a worker has no run at all. */
  lemma RunsOfLive(sys: Sys, k: Key, remote: Resources)
    requires SysOk(sys, remote) && k in sys.sched.groups
    ensures Shape(sys)
    ensures (forall r :: r in Und(sys) ==> sys.workers[r].key != k) <==> k !in sys.sched.active
  {
    hide RunsOk, GroupsReady, CountIn, SeparateFiles, QueueMirror, Identity, Undrained;
    if k in sys.sched.active {
      ActiveIsOwn(sys, k, remote);
    }
    forall r | r in Und(sys) && sys.workers[r].key == k ensures k in sys.sched.active {
      LiveRunIsActive(sys, r, remote);
    }
  }

  // ---- one step ----

  /** Which keys have a task after a command. */
  lemma GroupsAfter(s: Sched, a: Action, k: Key)
    requires Top(s) && Allowed(s, a) && !a.Event?
    ensures k in Body(s, a).groups <==>
              if k in s.groups then !a.Close? && !(a.Cancel? && Owns(s, a.id, k))
              else a.Enqueue? && a.task.DedupeKey() == k
  {
    hide QueueMirror, Identity, Tokens, Bounded, WorkConserving, InnerTask.DedupeKey;
    hide Sched.PauseGroup, Sched.ResumeGroup, Sched.CancelGroup, Sched.Close, Sched.Admit;
    match a
    case Enqueue(task) => AdmitFields(s, task);
    case Pause(id) =>
      if id in s.taskIdToDedupe {
        PauseFields(s, s.taskIdToDedupe[id]);
      }
    case Resume(id) =>
      if id in s.taskIdToDedupe {
        ResumeFields(s, s.taskIdToDedupe[id]);
      }
    case Cancel(id) =>
      if id in s.taskIdToDedupe {
        CancelFields(s, s.taskIdToDedupe[id]);
      }
    case Close(order) => CloseFields(s, order);
  }

  lemma OwnerIsLive(s: Sched, id: TaskId, k: Key)
    requires Top(s) && Owns(s, id, k)
    ensures k in s.groups
  {
    hide QueueMirror, Phases, Tokens, Bounded, WorkConserving;
  }

  /** The state after a command, as far as one key is concerned. */
  lemma AfterCommand(sys: Sys, a: Action, k: Key, remote: Resources)
    requires SysOk(sys, remote) && CanDo(sys, Command(a), remote) && !sys.sched.closed
    ensures var b := Body(sys.sched, a); var sys' := Do(sys, Command(a), remote);
            && Shape(sys') && sys'.sched.groups == b.groups
            && sys'.sched.offsets == (if a.Close? then map[] else sys.sched.offsets)
            && (k !in b.groups ==> (Idle(sys', k) <==> forall r :: r in Und(sys) ==> sys.workers[r].key != k))
  {
    hide Top, Ordered, RunsOk, GroupsReady, Considerate, Allowed, Body, Idle, Und, Apply, Spawn;
    var s, b := sys.sched, Body(sys.sched, a);
    TopIsCore(s);
    BodySpawns(s, a);
    CommandFields(s, a);
    ApplyIsBodyThenStart(s, a);
    TryStartStartsLeaders(b);
    SpawnShape(sys, b.TryStart());
    SpawnSched(sys, b.TryStart());
    if k !in b.groups {
      SpawnKeepsIdle(sys, b, k);
    }
  }

  lemma CommandLife(sys: Sys, a: Action, l: Life, k: Key, remote: Resources)
    requires SysOk(sys, remote) && CanDo(sys, Command(a), remote) && !sys.sched.closed && LifeOk(sys, l, k)
    ensures Shape(Do(sys, Command(a), remote))
    ensures LifeOk(Do(sys, Command(a), remote), NextLife(l, sys, Command(a), k), k)
  {
    hide Top, Ordered, RunsOk, GroupsReady, Allowed, Body, Idle, Und, Apply, Spawn, Ready, Do, InnerTask.DedupeKey;
    AfterCommand(sys, a, k, remote);
    GroupsAfter(sys.sched, a, k);
    IdleIs(sys, k);
    if k in sys.sched.groups {
      RunsOfLive(sys, k, remote);
    } else if a.Enqueue? && a.task.DedupeKey() == k {
      RoomIsIdle(sys, a, remote);
    } else if a.Cancel? && Owns(sys.sched, a.id, k) {
      OwnerIsLive(sys.sched, a.id, k);
    }
  }

  /** An accepted enqueue finds no run of its key. */
  lemma RoomIsIdle(sys: Sys, a: Action, remote: Resources)
    requires Shape(sys) && CanDo(sys, Command(a), remote) && a.Enqueue? && a.task.DedupeKey() !in sys.sched.groups
    ensures Idle(sys, a.task.DedupeKey())
  {
    hide Allowed, Ready, InnerTask.DedupeKey, Undrained;
    forall r | r in Und(sys) ensures sys.workers[r].key != a.task.DedupeKey() {
      assert sys.workers[r].key == sys.sched.spawned[r].key;
    }
  }

  lemma DeliverLife(sys: Sys, r: nat, l: Life, k: Key, remote: Resources)
    requires SysOk(sys, remote) && CanDo(sys, Deliver(r), remote) && LifeOk(sys, l, k)
    ensures Shape(Do(sys, Deliver(r), remote))
    ensures LifeOk(Do(sys, Deliver(r), remote), NextLife(l, sys, Deliver(r), k), k)
  {
    hide Core, Ordered, RunsOk, GroupsReady, Idle, Und, Apply, Spawn, Sched.Handle, Sched.TryStart, WorkConserving;
    var s, e := sys.sched, sys.logs[r][sys.handled[r]];
    var sys1 := sys.(handled := sys.handled[r := sys.handled[r] + 1]);
    HandleFields(s, e);
    ApplyEvent(s, e);
    TryStartStartsLeaders(s.Handle(e));
    DeliverUnd(sys, r, remote);
    SpawnShape(sys1, s.Handle(e).TryStart());
    SpawnSched(sys1, s.Handle(e).TryStart());
    if k !in s.Handle(e).groups {
      SpawnKeepsIdle(sys1, s.Handle(e), k);
    }
    IdleIs(sys, k);
    DrainedKey(sys, r, k, remote);
    if k in s.groups {
      RunsOfLive(sys, k, remote);
    }
  }

  /** Which runs of a key are undrained once an event of run `r` is handled. */
  lemma DrainedKey(sys: Sys, r: nat, k: Key, remote: Resources)
    requires SysOk(sys, remote) && CanDo(sys, Deliver(r), remote)
    ensures var e := sys.logs[r][sys.handled[r]];
            var sys1 := sys.(handled := sys.handled[r := sys.handled[r] + 1]);
            && Shape(sys1) && r in Und(sys) && e.key == sys.workers[r].key
            && ((forall r' :: r' in Und(sys1) ==> sys1.workers[r'].key != k) <==>
                if e.key == k then !e.Progress? else forall r' :: r' in Und(sys) ==> sys.workers[r'].key != k)
            && (k in sys.sched.pausedSet ==> k in sys.sched.groups)
            && (e.key == k && k in sys.sched.groups && e.Canceled? ==> k in sys.sched.pausedSet)
  {
    hide GroupsReady, CountIn, SeparateFiles, RunsOk, QueueMirror, Identity, Bounded, WorkConserving;
    EventHasRunKey(sys, r, remote);
    DeliverUnd(sys, r, remote);
    var e := sys.logs[r][sys.handled[r]];
    forall r' | r' in Und(sys) && r' != r ensures sys.workers[r'].key != sys.workers[r].key {
      assert sys.sched.spawned[r'].key != sys.sched.spawned[r].key;
    }
    if e.Canceled? && e.key in sys.sched.groups {
      EventAtCursor(sys, r, remote);
      LiveRunIsOwn(sys, r, remote);
    }
  }

  lemma WorkLife(sys: Sys, r: nat, i: Input, l: Life, k: Key, remote: Resources)
    requires SysOk(sys, remote) && CanDo(sys, Work(r, i), remote) && LifeOk(sys, l, k)
    ensures Shape(Do(sys, Work(r, i), remote)) && LifeOk(Do(sys, Work(r, i), remote), l, k)
  {
    hide Top, Ordered, RunsOk, GroupsReady, AfterWork, Fits, HonestInput, Undrained;
    HandledAtMost(sys, r, remote);
    WorkUnd(sys, r, i);
    WorkKeys(sys, r, i);
    WorkSched(sys, r, i);
  }

  lemma StepLife(sys: Sys, step: Step, l: Life, k: Key, remote: Resources)
    requires SysOk(sys, remote) && CanDo(sys, step, remote) && LifeOk(sys, l, k)
    ensures Shape(Do(sys, step, remote)) && LifeOk(Do(sys, step, remote), NextLife(l, sys, step, k), k)
  {
    hide Top, Ordered, RunsOk, GroupsReady, LifeOk, Considerate, Allowed, Apply, Fits, HonestInput, Reported, AfterWork;
    match step
    case Command(a) =>
      if sys.sched.closed {
        ClosedStays(sys, a);
      } else {
        CommandLife(sys, a, l, k, remote);
      }
    case Deliver(r) => DeliverLife(sys, r, l, k, remote);
    case Work(r, i) => WorkLife(sys, r, i, l, k, remote);
  }

  // ---- whole runs ----

  /** The life of a key over a run. */
  ghost function LifeOf(l: Life, sys: Sys, steps: seq<Step>, k: Key, remote: Resources): Life
    decreases |steps|
  {
    if steps == [] || !Shape(sys) || !Possible(sys, steps[0], remote) then l
    else LifeOf(NextLife(l, sys, steps[0], k), Do(sys, steps[0], remote), steps[1..], k, remote)
  }

  lemma {:induction false} RunLife(l: Life, sys: Sys, steps: seq<Step>, sys': Sys, k: Key, remote: Resources)
    requires SysOk(sys, remote) && LifeOk(sys, l, k) && Leads(sys, steps, sys', remote)
    ensures SysOk(sys', remote) && LifeOk(sys', LifeOf(l, sys, steps, k, remote), k)
    decreases |steps|
  {
    hide SysOk, LifeOk, Do, NextLife, Considerate, Possible;
    OkIsTop(sys, remote);
    if steps != [] {
      StepKeepsSysOk(sys, steps[0], remote);
      DeliverableStep(sys, steps[0], remote);
      StepLife(sys, steps[0], l, k, remote);
      RunLife(NextLife(l, sys, steps[0], k), Do(sys, steps[0], remote), steps[1..], sys', k, remote);
    } else {
      OkIsTop(sys', remote);
    }
  }

  lemma DeliverableStep(sys: Sys, step: Step, remote: Resources)
    requires Shape(sys) && Possible(sys, step, remote)
    ensures step.Deliver? ==> step.r < |sys.logs| && step.r < |sys.handled| && sys.handled[step.r] < |sys.logs[step.r]|
  {}

  lemma InitLife(maxUpload: nat, maxDownload: nat, files: map<string, seq<byte>>, k: Key, remote: Resources)
    ensures SysOk(Init(maxUpload, maxDownload, files), remote)
    ensures Shape(Init(maxUpload, maxDownload, files)) && LifeOk(Init(maxUpload, maxDownload, files), Gone, k)
  {
    hide Top;
    InitIsOk(maxUpload, maxDownload, files, remote);
  }

  /**
   When a key has neither a task nor an undrained run, an offset is left over for it iff its last task was cancelled
   while it had no worker and had reported progress or inherited an offset itself; what is left is that offset.
   While the key has a task, its offset is the task's last report, or what it inherited.
   */
  lemma LeftoverExactly(maxUpload: nat, maxDownload: nat, files: map<string, seq<byte>>, steps: seq<Step>, sys: Sys,
                        k: Key, remote: Resources)
    requires Leads(Init(maxUpload, maxDownload, files), steps, sys, remote)
    ensures Shape(sys)
    ensures var l := LifeOf(Gone, Init(maxUpload, maxDownload, files), steps, k, remote);
            && (k in sys.sched.groups ==> l.Alive?)
            && (k in sys.sched.groups || Idle(sys, k) ==>
                  && (k in sys.sched.offsets <==> l.Left? || (l.Alive? && l.reported.Some?))
                  && (k in sys.sched.offsets ==>
                        sys.sched.offsets[k] == if l.Left? then l.offset else l.reported.value))
  {
    hide Leads, LifeOf, Idle, Shape;
    InitLife(maxUpload, maxDownload, files, k, remote);
    RunLife(Gone, Init(maxUpload, maxDownload, files), steps, sys, k, remote);
    OkIsTop(sys, remote);
  }

  lemma AdmitAnnounces(s: Sched, task: InnerTask)
    ensures |s.emitted| < |s.Admit(task).emitted|
    ensures s.Admit(task).emitted[|s.emitted|]
            == Emission(task.taskId, task.taskId, Pending, s.Offset(task.DedupeKey()), task.totalSize)
  {
    hide CountIn, InnerTask.DedupeKey;
  }

  /** An accepted task is announced with the offset that the scheduler has for its key. */
  lemma EnqueueAnnounces(s: Sched, task: InnerTask)
    requires Top(s) && !s.closed && Allowed(s, Enqueue(task)) && task.DedupeKey() !in s.groups
    ensures var s' := Apply(s, Enqueue(task));
            && |s.emitted| < |s'.emitted|
            && s'.emitted[|s.emitted|]
               == Emission(task.taskId, task.taskId, Pending, s.Offset(task.DedupeKey()), task.totalSize)
  {
    hide Top, Core, Identity, Tells, InnerTask.DedupeKey, Sched.Admit, Sched.ExamineAll;
    var b := s.Admit(task);
    TopIsCore(s);
    AdmitAnnounces(s, task);
    AdmitKeepsCore(s, task);
    IdentityOf(b);
    PassTells(b.(queued := [], queuedSet := {}), b.queued, task.taskId);
    TellsExtends(b.emitted, b.TryStart().emitted, task.taskId, task.taskId in b.taskIdToDedupe, Shows(b, task.taskId));
  }

  lemma TellsExtends(log: seq<Emission>, log': seq<Emission>, id: TaskId, hears: bool, shown: Shown)
    requires Tells(log, log', id, hears, shown)
    ensures log <= log'
  {}

  /** The next task of a key is announced with what the last one left over, and with nothing if it left nothing. */
  lemma NextTaskStartsFrom(maxUpload: nat, maxDownload: nat, files: map<string, seq<byte>>, steps: seq<Step>, sys: Sys,
                           task: InnerTask, remote: Resources)
    requires Leads(Init(maxUpload, maxDownload, files), steps, sys, remote) && Shape(sys)
    requires CanDo(sys, Command(Enqueue(task)), remote) && !sys.sched.closed && task.DedupeKey() !in sys.sched.groups
    ensures var l := LifeOf(Gone, Init(maxUpload, maxDownload, files), steps, task.DedupeKey(), remote);
            var log, log' := sys.sched.emitted, Do(sys, Command(Enqueue(task)), remote).sched.emitted;
            && |log| < |log'|
            && log'[|log|] == Emission(task.taskId, task.taskId, Pending, if l.Left? then l.offset else 0,
                                       task.totalSize)
  {
    hide Leads, LifeOf, SysOk, Idle, Considerate, Allowed, Apply, Spawn, InnerTask.DedupeKey;
    var key := task.DedupeKey();
    InitLife(maxUpload, maxDownload, files, key, remote);
    RunLife(Gone, Init(maxUpload, maxDownload, files), steps, sys, key, remote);
    OkIsTop(sys, remote);
    RoomIsIdle(sys, Enqueue(task), remote);
    EnqueueAnnounces(sys.sched, task);
    SpawnSched(sys, Apply(sys.sched, Enqueue(task)));
  }

  // ---- what the next task is shown ----

  /** An enqueue that can happen and is accepted. */
  ghost predicate WouldAccept(sys: Sys, t: InnerTask, remote: Resources)
    requires Shape(sys)
  {
    CanDo(sys, Command(Enqueue(t)), remote) && !sys.sched.closed && t.DedupeKey() !in sys.sched.groups
  }

  ghost function Enqueued(sys: Sys, t: InnerTask, remote: Resources): Sys
    requires Shape(sys) && WouldAccept(sys, t, remote)
  {
    Do(sys, Command(Enqueue(t)), remote)
  }

  /** What a key's history leaves for its next task. */
  function LeftBy(l: Life): u64 {
    if l.Left? then l.offset else 0
  }

  /** Whether a report about key `k` is delivered during a run. */
  ghost predicate ReportedIn(sys: Sys, steps: seq<Step>, k: Key, remote: Resources)
    decreases |steps|
  {
    && steps != [] && Shape(sys) && Possible(sys, steps[0], remote)
    && (ReportsOn(sys, steps[0], k) || ReportedIn(Do(sys, steps[0], remote), steps[1..], k, remote))
  }

  lemma NothingShownYet(log: seq<Emission>, id: TaskId, limit: nat)
    requires forall e :: e in log ==> e.to != id
    ensures RightlyShown(log, id, limit) && ShownUpTo(log, id, 0)
  {
    forall i | 0 <= i < |log| ensures log[i].to != id {
      assert log[i] in log;
    }
  }

  lemma FreshIsUnheard(s: Sched, t: InnerTask)
    requires Allowed(s, Enqueue(t))
    ensures t.taskId !in s.taskIdToDedupe && forall e :: e in s.emitted ==> e.to != t.taskId
  {}

  lemma HeardFrom(log: seq<Emission>, i: nat, id: TaskId)
    requires i < |log| && log[i].to == id
    ensures HasHeard(log, id)
  {}

  /** A task that is accepted with a safe offset is followed from then on. */
  lemma AcceptedIsFollowed(sys: Sys, t: InnerTask, remote: Resources)
    requires SysOk(sys, remote) && WouldAccept(sys, t, remote)
    requires Safe(t, sys.sched.Offset(t.DedupeKey()), sys.files, remote)
    ensures Followed(Enqueued(sys, t, remote), t, false, remote)
  {
    hide SysOk, OffsetOk, RightlyShown, ShownUpTo, HasHeard, Apply, Considerate, Allowed, Spawn, Safe, Tells, Due,
         InnerTask.DedupeKey;
    OkIsTop(sys, remote);
    var s, a, key := sys.sched, Enqueue(t), t.DedupeKey();
    var s', limit := Apply(s, a), Total(t, remote(t.url));
    StepKeepsSysOk(sys, Command(a), remote);
    EnqueueKeepsOffset(sys, t, remote);
    SpawnSched(sys, s');
    FreshIsUnheard(s, t);
    NothingShownYet(s.emitted, t.taskId, limit);
    EnqueueAnnounces(s, t);
    HeardFrom(s'.emitted, |s.emitted|, t.taskId);
    StepTells(s, a, t.taskId);
    EnqueueDue(s, t);
    SafeInTotal(t, s.Offset(key), sys.files, remote);
    TellsRightly(s.emitted, s'.emitted, t.taskId, true, Due(s, a, t.taskId), 0, limit);
    AdmissionOwns(s, t);
  }

  lemma SafeInTotal(t: InnerTask, offset: u64, files: map<string, seq<byte>>, remote: Resources)
    requires Safe(t, offset, files, remote)
    ensures offset <= Total(t, remote(t.url))
  {}

  lemma EnqueueDue(s: Sched, t: InnerTask)
    requires t.taskId !in s.taskIdToDedupe && t.DedupeKey() !in s.groups
    ensures Hearing(s, Enqueue(t), t.taskId) && DueAmount(s, Enqueue(t), t.taskId) == s.Offset(t.DedupeKey())
  {}

  lemma {:induction false} RunKeepsFollowed(sys: Sys, steps: seq<Step>, sys': Sys, t: InnerTask, own: bool,
                                            remote: Resources)
    requires Followed(sys, t, own, remote) && Leads(sys, steps, sys', remote)
    ensures Followed(sys', t, own || ReportedIn(sys, steps, t.DedupeKey(), remote), remote)
    ensures t.taskId in sys'.sched.taskIdToDedupe ==>
              && t.taskId in sys.sched.taskIdToDedupe
              && sys.sched.Offset(t.DedupeKey()) <= sys'.sched.Offset(t.DedupeKey())
    decreases |steps|
  {
    hide Followed, Do, Possible, Considerate, ReportsOn, Sched.Offset, InnerTask.DedupeKey;
    if steps != [] {
      StepKeepsFollowed(sys, steps[0], t, own, remote);
      RunKeepsFollowed(Do(sys, steps[0], remote), steps[1..], sys', t,
                       own || ReportsOn(sys, steps[0], t.DedupeKey()), remote);
    }
  }

  /** The offset that an accepted task inherits, read off its key's history. */
  lemma InheritedOffset(maxUpload: nat, maxDownload: nat, files: map<string, seq<byte>>, before: seq<Step>, sys: Sys,
                        t: InnerTask, remote: Resources)
    requires Leads(Init(maxUpload, maxDownload, files), before, sys, remote) && Shape(sys)
    requires WouldAccept(sys, t, remote)
    ensures SysOk(sys, remote)
    ensures sys.sched.Offset(t.DedupeKey())
            == LeftBy(LifeOf(Gone, Init(maxUpload, maxDownload, files), before, t.DedupeKey(), remote))
  {
    hide Leads, LifeOf, SysOk, Idle, Considerate, Allowed, InnerTask.DedupeKey;
    var key := t.DedupeKey();
    InitLife(maxUpload, maxDownload, files, key, remote);
    RunLife(Gone, Init(maxUpload, maxDownload, files), before, sys, key, remote);
    RoomIsIdle(sys, Enqueue(t), remote);
  }

  /**
   Whatever pauses, resumes, cancels, failures and other tasks there are: if an accepted task is safe with what the
   history of its key left it, then everything its callback is ever shown is within its total, and nothing shows less
   than something before it.
   */
  lemma ProgressNeverGoesBack(maxUpload: nat, maxDownload: nat, files: map<string, seq<byte>>, before: seq<Step>,
                              sys: Sys,
                              t: InnerTask, after: seq<Step>, sys': Sys, remote: Resources)
    requires Leads(Init(maxUpload, maxDownload, files), before, sys, remote) && Shape(sys)
    requires WouldAccept(sys, t, remote)
    requires Leads(Enqueued(sys, t, remote), after, sys', remote)
    requires Safe(t, LeftBy(LifeOf(Gone, Init(maxUpload, maxDownload, files), before, t.DedupeKey(), remote)),
                  sys.files, remote)
    ensures RightlyShown(sys'.sched.emitted, t.taskId, Total(t, remote(t.url)))
  {
    hide Leads, LifeOf, SysOk, WouldAccept, Enqueued, Safe, RightlyShown, HasHeard, ReportedIn;
    InheritedOffset(maxUpload, maxDownload, files, before, sys, t, remote);
    AcceptedIsFollowed(sys, t, remote);
    RunKeepsFollowed(Enqueued(sys, t, remote), after, sys', t, false, remote);
  }

  /**
   Resume monotonicity, for the same tasks. As long as the task lives, through any pauses and resumes, its remembered
   offset never decreases and never exceeds its total. When it is a download without a worker, the offset is exactly
   the length of its file if it has reported anything, and else what it inherited, not beyond its next report.
   */
  lemma ResumeNeverGoesBack(maxUpload: nat, maxDownload: nat, files: map<string, seq<byte>>, before: seq<Step>,
                            sys: Sys,
                            t: InnerTask, mid: seq<Step>, sys1: Sys, after: seq<Step>, sys2: Sys, remote: Resources)
    requires Leads(Init(maxUpload, maxDownload, files), before, sys, remote) && Shape(sys)
    requires WouldAccept(sys, t, remote)
    requires Leads(Enqueued(sys, t, remote), mid, sys1, remote) && Leads(sys1, after, sys2, remote)
    requires Safe(t, LeftBy(LifeOf(Gone, Init(maxUpload, maxDownload, files), before, t.DedupeKey(), remote)),
                  sys.files, remote)
    requires t.taskId in sys2.sched.taskIdToDedupe
    ensures var key, s1, s2 := t.DedupeKey(), sys1.sched, sys2.sched;
            var own := ReportedIn(Enqueued(sys, t, remote), mid, key, remote) || ReportedIn(sys1, after, key, remote);
            var length := |OnDisk(sys2.files, t.filePath)|;
            && Owns(s1, t.taskId, key) && Owns(s2, t.taskId, key)
            && s1.Offset(key) <= s2.Offset(key) <= Total(t, remote(t.url))
            && (IsDownload(t) && key !in s2.active ==>
                  if own then s2.Offset(key) == length else s2.Offset(key) <= Soon(length, |remote(t.url)|))
  {
    hide Leads, LifeOf, SysOk, WouldAccept, Enqueued, Safe, RightlyShown, HasHeard, ReportedIn, OffsetOk, ShownUpTo,
         Soon;
    InheritedOffset(maxUpload, maxDownload, files, before, sys, t, remote);
    AcceptedIsFollowed(sys, t, remote);
    var own1 := ReportedIn(Enqueued(sys, t, remote), mid, t.DedupeKey(), remote);
    RunKeepsFollowed(Enqueued(sys, t, remote), mid, sys1, t, false, remote);
    RunKeepsFollowed(sys1, after, sys2, t, own1, remote);
    ParkedOffset(sys2, t.DedupeKey(), own1 || ReportedIn(sys1, after, t.DedupeKey(), remote), remote);
  }

  lemma ParkedOffset(sys: Sys, k: Key, own: bool, remote: Resources)
    requires SysOk(sys, remote) && k in sys.sched.groups && OffsetOk(sys, sys.sched, k, own, remote)
    ensures var t := sys.sched.groups[k].leader;
            var length := |OnDisk(sys.files, t.filePath)|;
            && sys.sched.Offset(k) <= Total(t, remote(t.url))
            && (IsDownload(t) && k !in sys.sched.active ==>
                  if own then sys.sched.Offset(k) == length else sys.sched.Offset(k) <= Soon(length, |remote(t.url)|))
  {
    hide Top, Ordered, RunsOk, GroupsReady, RunOffset, Soon;
  }
}
