/**
 A worker that nobody can stop. Worker events carry no run number, so the last event of an old worker takes the `active`
 entry of the new one away: from then on no command reaches its token, a close included.
 */
module Lost {
  import opened Basics
  import opened Sequences
  import opened SchedulerState
  import opened Invariants
  import opened Runs
  import opened StatusTrace
  import opened Worker
  import opened WorkerSafety
  import opened Protocol
  import opened System
  import opened Offsets
  import opened Orphans
  import opened ProgressShown
  import opened Scenarios

  /** Run `r` has been started, has not been told to stop, and no entry leads to it. */
  ghost predicate IsLost(s: Sched, r: Token) {
    r < |s.spawned| && r !in s.cancelled && r !in s.active.Values
  }

  // ---- once lost, always lost ----

  /** Commands cancel active tokens only. */
  ghost predicate CancelsActive(s: Sched, s': Sched) {
    && s'.cancelled <= s.cancelled + s.active.Values && s'.active.Values <= s.active.Values
    && s'.spawned == s.spawned
  }

  lemma PauseCancelsActive(s: Sched, key: Key)
    ensures CancelsActive(s, s.PauseGroup(key))
  {
    hide CountIn, Keep, Elems, Sched.EmitIfLive;
    var s1 := s.Stop(key).Unqueue(key);
    EmitIfLiveOnlyEmits(s1.(pausedSet := s1.pausedSet + {key}), key, Status.Paused);
  }

  lemma CancelCancelsActive(s: Sched, key: Key)
    ensures CancelsActive(s, s.CancelGroup(key))
  {
    hide CountIn, Keep, Elems, InnerTask.DedupeKey, Sched.Offset;
  }

  lemma CloseCancelsActive(s: Sched, order: seq<Key>)
    ensures CancelsActive(s, s.Close(order))
  {
    EmitPausedOnlyEmits(s.(cancelled := s.cancelled + s.active.Values), order);
  }

  lemma BodyCancelsActive(s: Sched, a: Action)
    requires Core(s)
    ensures CancelsActive(s, Body(s, a))
  {
    hide Core, CountIn;
    hide Sched.PauseGroup, Sched.ResumeGroup, Sched.CancelGroup, Sched.Close, Sched.Admit, Sched.Handle;
    match a
    case Enqueue(task) => AdmitFields(s, task);
    case Pause(id) =>
      if id in s.taskIdToDedupe {
        PauseCancelsActive(s, s.taskIdToDedupe[id]);
      }
    case Resume(id) =>
      if id in s.taskIdToDedupe {
        ResumeFields(s, s.taskIdToDedupe[id]);
      }
    case Cancel(id) =>
      if id in s.taskIdToDedupe {
        CancelCancelsActive(s, s.taskIdToDedupe[id]);
      }
    case Close(order) => CloseCancelsActive(s, order);
    case Event(e) => HandleFields(s, e);
  }

  /** The start loop gives out new tokens only. */
  lemma {:induction false} PassKeepsLost(s: Sched, keys: seq<Key>, r: Token)
    requires IsLost(s, r)
    ensures IsLost(s.ExamineAll(keys), r)
    decreases |keys|
  {
    hide CountIn;
    if keys != [] {
      PassKeepsLost(s.Examine(keys[0]), keys[1..], r);
    }
  }

  lemma StepKeepsLost(s: Sched, a: Action, r: Token)
    requires Top(s) && Allowed(s, a) && IsLost(s, r)
    ensures IsLost(Apply(s, a), r)
  {
    hide Top, Core, Body;
    if !s.closed {
      var b := Body(s, a);
      TopIsCore(s);
      BodyCancelsActive(s, a);
      ApplyIsBodyThenStart(s, a);
      PassKeepsLost(b.(queued := [], queuedSet := {}), b.queued, r);
    }
  }

  /** No command, and no event, ever stops a lost worker. */
  lemma {:induction false} LostForever(s: Sched, actions: seq<Action>, r: Token)
    requires Top(s) && AllAllowed(s, actions) && IsLost(s, r)
    ensures IsLost(Exec(s, actions), r)
    decreases |actions|
  {
    hide Top, IsLost, Apply;
    if actions != [] {
      ApplyKeepsTop(s, actions[0]);
      StepKeepsLost(s, actions[0], r);
      LostForever(Apply(s, actions[0]), actions[1..], r);
    }
  }

  // ---- how a worker is lost ----

  /** A last event of a key, whoever sent it, loses the key's worker unless that has been told to stop. */
  lemma LastEventLoses(s: Sched, e: WorkerEvent)
    requires Top(s) && !s.closed && e.key in s.active && !e.Progress?
    ensures IsLost(Apply(s, Event(e)), s.active[e.key]) <==> e.key !in s.pausedSet
  {
    hide Top, Core, Sched.Handle, Sched.TryStart, StartedFromGroups;
    var r := s.active[e.key];
    TopIsCore(s);
    TokensDiffer(s, e.key);
    HandleFields(s, e);
    var b := s.Handle(e);
    TryStartStartsLeaders(b);
    if e.key !in s.pausedSet {
      assert IsLost(b, r);
      StartKeepsLost(b, r);
    }
  }

  lemma StartKeepsLost(b: Sched, r: Token)
    requires IsLost(b, r)
    ensures IsLost(b.TryStart(), r)
  {
    PassKeepsLost(b.(queued := [], queuedSet := {}), b.queued, r);
  }

  lemma TokensDiffer(s: Sched, key: Key)
    requires Core(s) && key in s.active
    ensures s.active[key] < |s.spawned| && s.active[key] !in (s.active - {key}).Values
    ensures s.active[key] in s.cancelled <==> key in s.pausedSet
  {
    hide QueueMirror, Phases, Identity, Bounded;
  }

  // ---- it happens ----

  /** The only task there is has a worker, unless it is paused or its direction has no slot. */
  lemma OnlyTaskIsStarted(s: Sched, key: Key)
    requires Top(s) && s.groups.Keys == {key} && key !in s.pausedSet && 0 < s.Max(key.dir)
    ensures key in s.active && s.active[key] < |s.spawned|
    ensures s.spawned[s.active[key]].task == s.groups[key].leader
  {
    hide Identity;
    if key !in s.active {
      NoneActive(s.active, key.dir);
    }
  }

  lemma NoneActive(active: map<Key, Token>, d: Direction)
    requires active.Keys == {}
    ensures CountIn(active, d) == 0
  {
    assert (set k | k in active && k.dir == d) == {};
  }

  lemma CancelOnlyTask(s: Sched, id: TaskId, key: Key)
    requires Top(s) && !s.closed && Owns(s, id, key) && s.groups.Keys == {key}
    ensures Apply(s, Cancel(id)).groups == map[] && Apply(s, Cancel(id)).spawned == s.spawned
  {
    hide Top, Core, Sched.CancelGroup, Sched.TryStart, StartedFromGroups;
    TopIsCore(s);
    CancelFields(s, key);
    TryStartStartsLeaders(s.CancelGroup(key));
    assert s.groups - {key} == map[];
    if |s.spawned| < |Apply(s, Cancel(id)).spawned| {
      StartedFromSome(s.CancelGroup(key).groups, Apply(s, Cancel(id)).spawned, |s.spawned|);
    }
  }

  lemma StartedFromSome(groups: map<Key, GroupState>, spawned: seq<Run>, from: nat)
    requires StartedFromGroups(groups, spawned, from) && from < |spawned|
    ensures groups != map[]
  {
    assert spawned[from].key in groups;
  }

  lemma EnqueueOnlyTask(s: Sched, task: InnerTask)
    requires s.groups == map[] && !s.closed
    ensures Apply(s, Enqueue(task)).groups == map[task.DedupeKey() := GroupState(task, task)]
    ensures s.spawned <= Apply(s, Enqueue(task)).spawned
  {
    hide Sched.Admit, Sched.TryStart, InnerTask.DedupeKey;
    AdmitFields(s, task);
    TryStartStartsLeaders(s.Admit(task));
  }

  /** The new task of a key whose only task has been cancelled gets a worker of its own at once. */
  lemma NewWorkerAtOnce(sys: Sys, r: nat, id: TaskId, task: InnerTask, sys1: Sys, sys2: Sys, remote: Resources)
    returns (r2: nat)
    requires Shape(sys) && Top(sys.sched) && !sys.sched.closed && r < |sys.workers|
    requires Owns(sys.sched, id, task.DedupeKey()) && sys.sched.groups.Keys == {task.DedupeKey()}
    requires sys.workers[r].key == task.DedupeKey() && sys.workers[r].task != task && Fresh(sys.sched, task.taskId)
    requires forall i :: 0 <= i < |sys.workers| ==> sys.workers[i].task != task
    requires 0 < sys.sched.Max(task.direction)
    requires Goes(sys, Command(Cancel(id)), sys1, remote) && Goes(sys1, Command(Enqueue(task)), sys2, remote)
    ensures task.DedupeKey() in sys2.sched.active && sys2.sched.active[task.DedupeKey()] == r2
    ensures r2 < |sys2.workers| && r2 != r && sys2.workers[r2].phase.Preparing? && sys2.workers[r2].task == task
  {
    hide Top, Apply, Fresh, InnerTask.DedupeKey, Shape;
    var key := task.DedupeKey();
    CancelFreesKey(sys.sched, id, key, task.taskId);
    CommandGoes(sys, Cancel(id), r, remote);
    CancelOnlyTask(sys.sched, id, key);
    ApplyKeepsMax(sys.sched, Cancel(id));
    AdmissionOwns(sys1.sched, task);
    CommandGoes(sys1, Enqueue(task), r, remote);
    EnqueueOnlyTask(sys1.sched, task);
    ApplyKeepsMax(sys1.sched, Enqueue(task));
    OnlyTaskIsStarted(sys2.sched, key);
    r2 := sys2.sched.active[key];
    WorkersAreSpawned(sys);
    WorkersAreSpawned(sys1);
    WorkersAreSpawned(sys2);
    NewRunIsLater(sys1.sched.spawned, sys2.sched.spawned, r2, task);
    SpawnedWorker(sys1, sys2.sched, r2);
  }

  lemma NewRunIsLater(before: seq<Run>, after: seq<Run>, r: nat, task: InnerTask)
    requires before <= after && r < |after| && after[r].task == task
    requires forall i :: 0 <= i < |before| ==> before[i].task != task
    ensures |before| <= r
  {}

  lemma WorkersAreSpawned(sys: Sys)
    requires Shape(sys)
    ensures |sys.workers| == |sys.logs| == |sys.handled| == |sys.sched.spawned|
    ensures forall r :: 0 <= r < |sys.workers| ==> sys.workers[r].task == sys.sched.spawned[r].task
  {}

  /** What the old worker does and tells leaves the new worker alone. */
  lemma OldWorkerGoes(sys: Sys, r2: nat, step: Step, sys': Sys, remote: Resources)
    requires Goes(sys, step, sys', remote) && Top(sys.sched) && Shape(sys) && r2 < |sys.workers| && !step.Command?
    requires step.r != r2 && step.r < |sys.workers| && sys.handled[step.r] <= |sys.logs[step.r]|
    ensures Shape(sys') && r2 < |sys'.workers| && sys'.workers[r2] == sys.workers[r2]
    ensures step.Work? ==> sys'.sched == sys.sched
    ensures step.Deliver? ==> sys'.sched == Apply(sys.sched, Event(sys.logs[step.r][sys.handled[step.r]]))
  {
    hide Top, Apply, Next, Fits, Und, HonestInput;
    match step
    case Deliver(r) =>
      var e := Event(sys.logs[r][sys.handled[r]]);
      var sys1 := sys.(handled := sys.handled[r := sys.handled[r] + 1]);
      ApplyGrows(sys.sched, e);
      SpawnShape(sys1, Apply(sys.sched, e));
      SpawnKeepsRuns(sys1, Apply(sys.sched, e), r2);
      SpawnSched(sys1, Apply(sys.sched, e));
    case Work(r, i) =>
      WorkUnd(sys, r, i);
      WorkSched(sys, r, i);
  }

  /**
   A worker that goes on for ever as far as the scheduler is concerned: its key's old task was cancelled, the key
   enqueued again, and the old worker's `Canceled` delivered. However the run goes on, closing included, the new
   worker is never told to stop.
   */
  lemma UnstoppableWorker(t: InnerTask, t': InnerTask, remote: Resources)
    requires IsDownload(t) && 1 <= t.chunkSize && 0 < |remote(t.url)| < U64_LIMIT
    requires SameWork(t', t) && t'.taskId != t.taskId
    ensures exists sys, sys', r: nat ::
              && Reachable(sys, remote)
              && GoesAll(sys, [Command(Cancel(t.taskId)), Command(Enqueue(t')), Work(0, Polled(true)), Deliver(0)],
                         sys', remote)
              && r < |sys'.workers| && sys'.workers[r].task == t' && sys'.workers[r].phase.Preparing?
              && forall more :: AllAllowed(sys'.sched, more) ==> r !in Exec(sys'.sched, more).cancelled
  {
    hide Alone, Next, InnerTask.DedupeKey, SysOk, Top, Fresh, Goes, GoesAll, Reachable, Exec, AllAllowed, SameWork,
         Apply;
    SameKeyIsSameWork(t', t);
    var key := t.DedupeKey();
    var sys := RunningAlone(t, remote);
    var w, file := sys.workers[0], FileAt(sys.files, sys.workers[0].task.filePath);
    OkIsTop(sys, remote);
    AloneHas(sys.sched, t);
    StoppedPoll(w, file);
    var sys1, sys2 := CancelAndEnqueue(sys, 0, t.taskId, t', remote);
    var r := NewWorkerAtOnce(sys, 0, t.taskId, t', sys1, sys2, remote);
    RunIsOpen(sys, 0, Polled(true), remote);
    var sys3 := OrphanEnds(sys2, 0, w, [], 0, file, t'.taskId, Polled(true), remote);
    var sys' := OldWorkerIsHeard(sys2, sys3, r, key, t'.taskId, remote);
    OldWorkerGoes(sys2, r, Work(0, Polled(true)), sys3, remote);
    FourSteps(sys, Command(Cancel(t.taskId)), sys1, Command(Enqueue(t')), sys2, Work(0, Polled(true)), sys3, Deliver(0),
              sys', remote);
  }

  /** The `Canceled` of the old worker, number 0, loses the new worker `r`. */
  lemma OldWorkerIsHeard(sys2: Sys, sys3: Sys, r: nat, key: Key, id: TaskId, remote: Resources) returns (sys': Sys)
    requires Ending(sys3, 0, key) && sys3.sched == sys2.sched && Owns(sys3.sched, id, key)
    requires key in sys3.sched.active && sys3.sched.active[key] == r && key !in sys3.sched.pausedSet && r != 0
    requires 0 < |sys3.logs| && 0 < |sys3.handled| && sys3.logs[0] == [WorkerEvent.Canceled(key)]
    requires sys3.handled[0] == 0
    requires r < |sys3.workers|
    ensures Goes(sys3, Deliver(0), sys', remote)
    ensures r < |sys'.workers| && sys'.workers[r] == sys3.workers[r]
    ensures forall more :: AllAllowed(sys'.sched, more) ==> r !in Exec(sys'.sched, more).cancelled
  {
    hide Top, Apply, Exec, AllAllowed, Goes, Fresh, Shape;
    EndingHas(sys3, 0, key);
    var e := WorkerEvent.Canceled(key);
    sys' := LastDelivery(sys3, 0, key, e, id, remote);
    OldWorkerGoes(sys3, r, Deliver(0), sys', remote);
    LastEventLoses(sys3.sched, e);
    EventsAllowed(sys3.sched, e);
    ApplyKeepsTop(sys3.sched, Event(e));
    forall more | AllAllowed(sys'.sched, more) ensures r !in Exec(sys'.sched, more).cancelled {
      LostForever(sys'.sched, more, r);
    }
  }

  lemma FourSteps(sys0: Sys, a: Step, sys1: Sys, b: Step, sys2: Sys, c: Step, sys3: Sys, d: Step, sys4: Sys,
                  remote: Resources)
    requires Goes(sys0, a, sys1, remote) && Goes(sys1, b, sys2, remote) && Goes(sys2, c, sys3, remote)
    requires Goes(sys3, d, sys4, remote)
    ensures GoesAll(sys0, [a, b, c, d], sys4, remote)
  {
    hide Goes;
    assert GoesAll(sys4, [], sys4, remote);
    assert [a] + [b, c, d] == [a, b, c, d] && [b] + [c, d] == [b, c, d] && [c] + [d] == [c, d];
    GoesCons(sys3, d, sys4, [], sys4, remote);
    GoesCons(sys2, c, sys3, [d], sys4, remote);
    GoesCons(sys1, b, sys2, [c, d], sys4, remote);
    GoesCons(sys0, a, sys1, [b, c, d], sys4, remote);
  }

  lemma AloneHas(s: Sched, t: InnerTask)
    requires Alone(s, t)
    ensures s.groups.Keys == {t.DedupeKey()} && s.Max(t.direction) == 1
  {}
}
