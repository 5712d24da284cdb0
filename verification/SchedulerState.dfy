/**
 The scheduler's state as a value, and what each command and worker event does to it.
 `Scheduler.dfy` proves the in-place code against these functions; the other modules prove
 what the library promises about them.
 */
module SchedulerState {
  import opened Basics
  import opened Sequences

  /** A cancellation token; the token of the n-th spawned worker is n. */
  type Token = nat

  datatype GroupState = GroupState(leader: InnerTask, entry: InnerTask)

  /** One callback invocation: whose callback, which task the record is about, and the record. */
  datatype Emission = Emission(to: TaskId, about: TaskId, status: Status, transferred: u64, total: u64)

  /** A started `run_group` worker. */
  datatype Run = Run(key: Key, task: InnerTask, start: u64)

  function CountIn(active: map<Key, Token>, dir: Direction): nat {
    |set k | k in active && k.dir == dir|
  }

  datatype Sched = Sched(
    maxUpload: nat,
    maxDownload: nat,
    groups: map<Key, GroupState>,
    taskIdToDedupe: map<TaskId, Key>,
    queued: seq<Key>,
    queuedSet: set<Key>,
    pausedSet: set<Key>,
    active: map<Key, Token>,
    offsets: map<Key, u64>,
    cancelled: set<Token>,    // tokens that have been told to stop
    spawned: seq<Run>,        // every worker ever started
    emitted: seq<Emission>,   // every callback invocation so far
    closed: bool)             // the command loop has exited
  {
    function Offset(key: Key): u64 {
      if key in offsets then offsets[key] else 0
    }

    function Max(dir: Direction): nat {
      match dir
      case Upload => maxUpload
      case Download => maxDownload
    }

    function ActiveIn(dir: Direction): nat {
      CountIn(active, dir)
    }

    predicate CanStart(dir: Direction) {
      ActiveIn(dir) < Max(dir)
    }

    /** A record about `entry` goes to the callback registered with `entry`. */
    function Emit(entry: InnerTask, status: Status, transferred: u64, total: u64): Sched {
      this.(emitted := emitted + [Emission(entry.taskId, entry.taskId, status, transferred, total)])
    }

    // ---- starting work ----

    function Push(key: Key): Sched {
      this.(queued := queued + [key], queuedSet := queuedSet + {key})
    }

    function PushIfIdle(key: Key): Sched {
      if key !in active && key !in queuedSet then Push(key) else this
    }

    function Start(key: Key): Sched
      requires key in groups
    {
      var entry := groups[key].entry;
      var s := Emit(entry, Transmission, Offset(key), entry.totalSize);
      s.(active := active[key := |spawned|],
         spawned := spawned + [Run(key, groups[key].leader, Offset(key))])
    }

    /** What happens to one key taken from the front of the queue. */
    function Examine(key: Key): Sched {
      if key in active || key !in groups then this
      else if !CanStart(key.dir) then Push(key)
      else Start(key)
    }

    function ExamineAll(keys: seq<Key>): Sched
      decreases |keys|
    {
      if keys == [] then this else Examine(keys[0]).ExamineAll(keys[1..])
    }

    /** One pass over the queue: the specification of the rotating start loop. */
    function TryStart(): Sched {
      this.(queued := [], queuedSet := {}).ExamineAll(queued)
    }

    // ---- commands ----

    function Admit(task: InnerTask): Sched {
      var key := task.DedupeKey();
      var s := this.(taskIdToDedupe := taskIdToDedupe[task.taskId := key],
                     groups := groups[key := GroupState(task, task)]);
      var s1 := s.Emit(task, Pending, Offset(key), task.totalSize);
      var s2 := if key in active then s1.Emit(task, Transmission, Offset(key), task.totalSize) else s1;
      s2.PushIfIdle(key)
    }

    /** The rejected caller hears about the task that is already there. */
    function Reject(task: InnerTask): Sched
      requires task.DedupeKey() in groups
    {
      var leader := groups[task.DedupeKey()].leader;
      var duplicate := Status.Failed(DuplicateTaskError);
      this.(emitted := emitted + [Emission(task.taskId, leader.taskId, duplicate, 0, leader.totalSize)])
    }

    function Enqueue(task: InnerTask): Sched {
      if task.DedupeKey() in groups then Reject(task) else Admit(task).TryStart()
    }

    function Stop(key: Key): Sched {
      if key in active then this.(cancelled := cancelled + {active[key]}) else this
    }

    function Unqueue(key: Key): Sched {
      this.(queued := Keep(queued, Elems(queued) - {key}), queuedSet := queuedSet - {key})
    }

    function EmitIfLive(key: Key, status: Status): Sched {
      if key in groups then
        var entry := groups[key].entry;
        Emit(entry, status, Offset(key), entry.totalSize)
      else this
    }

    function PauseGroup(key: Key): Sched {
      var s := Stop(key).Unqueue(key);
      s.(pausedSet := s.pausedSet + {key}).EmitIfLive(key, Status.Paused)
    }

    function ResumeGroup(key: Key): (Sched, Result<()>) {
      if key !in pausedSet || key in active then (this, Err(InvalidTaskState))
      else
        var s := this.(pausedSet := pausedSet - {key});
        if key !in groups then (s, Err(InvalidTaskState))
        else (s.EmitIfLive(key, Pending).PushIfIdle(key), Ok(()))
    }

    /** Remove a group and its id mapping, and report its last status. */
    function EndGroup(key: Key, status: Status, transferred: u64, total: u64): Sched
      requires key in groups
    {
      var group := groups[key];
      this.(groups := groups - {key}, taskIdToDedupe := taskIdToDedupe - {group.leader.taskId})
          .Emit(group.entry, status, transferred, total)
    }

    function CancelGroup(key: Key): Sched {
      var s := Stop(key).(active := active - {key}).Unqueue(key);
      var s1 := s.(pausedSet := pausedSet - {key});
      if key in groups then s1.EndGroup(key, Status.Canceled, Offset(key), groups[key].entry.totalSize) else s1
    }

    function Pause(id: TaskId): (Sched, Result<()>) {
      if id in taskIdToDedupe then (PauseGroup(taskIdToDedupe[id]).TryStart(), Ok(()))
      else (TryStart(), Err(TaskNotFound))
    }

    function Resume(id: TaskId): (Sched, Result<()>) {
      if id in taskIdToDedupe then
        var (s, r) := ResumeGroup(taskIdToDedupe[id]);
        (s.TryStart(), r)
      else (TryStart(), Err(TaskNotFound))
    }

    function Cancel(id: TaskId): (Sched, Result<()>) {
      if id in taskIdToDedupe then (CancelGroup(taskIdToDedupe[id]).TryStart(), Ok(()))
      else (TryStart(), Err(TaskNotFound))
    }

    function EmitPaused(keys: seq<Key>): Sched
      decreases |keys|
    {
      if keys == [] then this else EmitIfLive(keys[0], Status.Paused).EmitPaused(keys[1..])
    }

    /** `order` is the order in which the hash map of groups happens to be walked. */
    function Close(order: seq<Key>): Sched {
      var s := this.(cancelled := cancelled + active.Values).EmitPaused(order);
      s.(active := map[], groups := map[], taskIdToDedupe := map[], queued := [], queuedSet := {},
         pausedSet := {}, offsets := map[], closed := true)
    }

    // ---- worker events ----

    function Handle(e: WorkerEvent): Sched {
      match e
      case Progress(key, nextOffset, totalSize) =>
        var s := this.(offsets := offsets[key := nextOffset]);
        if key in groups then s.Emit(groups[key].entry, Transmission, nextOffset, totalSize) else s
      case Completed(key, totalSize) =>
        var s := this.(active := active - {key}, pausedSet := pausedSet - {key},
                       offsets := offsets[key := totalSize]);
        var s1 := if key in groups then s.EndGroup(key, Complete, totalSize, totalSize) else s;
        s1.(offsets := s1.offsets - {key})
      case Failed(key, error) =>
        var s := this.(active := active - {key}, pausedSet := pausedSet - {key});
        var s1 := if key in groups
                  then s.EndGroup(key, Status.Failed(error), Offset(key), groups[key].entry.totalSize) else s;
        s1.(offsets := s1.offsets - {key})
      case Canceled(key) =>
        var s := this.(active := active - {key});
        if key in pausedSet then s
        else
          var s1 := if key in groups
                    then s.EndGroup(key, Status.Canceled, Offset(key), groups[key].entry.totalSize) else s;
          s1.(offsets := s1.offsets - {key})
    }

    function Event(e: WorkerEvent): Sched {
      Handle(e).TryStart()
    }
  }

  function New(maxUpload: nat, maxDownload: nat): Sched {
    Sched(maxUpload, maxDownload, map[], map[], [], {}, {}, map[], map[], {}, [], [], false)
  }
}
