/** What a user of the library can rely on in every reachable state of the whole system. */
module EndToEnd {
  import opened Basics
  import opened SchedulerState
  import opened Invariants
  import opened Runs
  import opened StatusTrace
  import opened WorkerSafety
  import opened Protocol
  import opened System

  /**
   A key never has two undrained workers. Its `active` entry is there exactly while it has one that
   still belongs to a live task, and only live keys wait in the queue.
   */
  lemma OneWorkerPerKey(sys: Sys, remote: Resources)
    requires Reachable(sys, remote)
    ensures Shape(sys)
    ensures forall r, r' :: r in Und(sys) && r' in Und(sys) && r != r' ==> sys.workers[r].key != sys.workers[r'].key
    ensures forall k :: k in sys.sched.active <==>
              exists r :: r in Und(sys) && sys.workers[r].key == k && k in sys.sched.groups
    ensures forall k :: k in sys.sched.queued ==> k in sys.sched.groups
  {
    hide Reachable, RunsOk, GroupsReady, CountIn;
    ReachableIsOk(sys, remote);
    var s := sys.sched;
    forall k ensures k in s.active <==> exists r :: r in Und(sys) && sys.workers[r].key == k && k in s.groups {
      if k in s.active {
        assert s.active[k] in Und(sys) && sys.workers[s.active[k]].key == k;
      }
      forall r | r in Und(sys) && sys.workers[r].key == k && k in s.groups ensures k in s.active {
        assert OwnsOrOrphan(s.groups, s.active, s.spawned[r].key, r);
      }
    }
  }

  /** The undrained run of a live key is the worker of that key's own task. */
  lemma LiveRunIsOwn(sys: Sys, r: nat, remote: Resources)
    requires SysOk(sys, remote) && r in Und(sys) && sys.workers[r].key in sys.sched.groups
    ensures var k := sys.workers[r].key;
            && k in sys.sched.active && sys.sched.active[k] == r
            && sys.workers[r].task == sys.sched.groups[k].leader
            && (r in sys.sched.cancelled <==> k in sys.sched.pausedSet)
  {
    hide RunsOk, GroupsReady, CountIn, SeparateFiles;
    assert OwnsOrOrphan(sys.sched.groups, sys.sched.active, sys.sched.spawned[r].key, r);
  }

  /** At every moment the file of every live download is a beginning of its resource. */
  lemma FilesArePrefixes(sys: Sys, remote: Resources, k: Key)
    requires Reachable(sys, remote) && k in sys.sched.groups && IsDownload(sys.sched.groups[k].leader)
    ensures var t := sys.sched.groups[k].leader;
            OnDisk(sys.files, t.filePath) <= remote(t.url)
  {
    hide Reachable, Shape, Top, Ordered, RunsOk;
    ReachableIsOk(sys, remote);
  }

  /** The scheduler's message behind a step, if the step is one. */
  function MessageOf(sys: Sys, step: Step): Option<Action>
    requires |sys.logs| == |sys.handled|
  {
    match step
    case Command(a) => Some(a)
    case Deliver(r) =>
      if r < |sys.logs| && sys.handled[r] < |sys.logs[r]| then Some(Event(sys.logs[r][sys.handled[r]])) else None
    case Work(_, _) => None
  }

  /** What one step of the system tells the callback of task `id`. */
  lemma SystemStepTrace(sys: Sys, step: Step, remote: Resources, id: TaskId)
    requires SysOk(sys, remote) && CanDo(sys, step, remote)
    ensures var m := MessageOf(sys, step);
            TraceOf(Do(sys, step, remote).sched.emitted, id) == TraceOf(sys.sched.emitted, id) +
            if m.None? || sys.sched.closed then []
            else Direct(sys.sched, m.value, id) + Started(Body(sys.sched, m.value), Apply(sys.sched, m.value), id)
  {
    hide Top, Ordered, RunsOk, GroupsReady, TraceOf, Direct, Body, Apply, Und;
    if MessageOf(sys, step).Some? {
      StepTrace(sys.sched, MessageOf(sys, step).value, id);
    } else {
      assert TraceOf(sys.sched.emitted, id) + [] == TraceOf(sys.sched.emitted, id);
    }
  }

  ghost predicate Hears(sys: Sys, step: Step, remote: Resources, id: TaskId, status: Status)
    requires Shape(sys) && CanDo(sys, step, remote)
  {
    var before, after := TraceOf(sys.sched.emitted, id), TraceOf(Do(sys, step, remote).sched.emitted, id);
    exists i :: |before| <= i < |after| && after[i] == status
  }

  lemma HeardDirectly(sys: Sys, step: Step, remote: Resources, id: TaskId, status: Status)
    requires SysOk(sys, remote) && CanDo(sys, step, remote)
    requires Hears(sys, step, remote, id, status) && status.IsTerminal()
    ensures MessageOf(sys, step).Some? && Direct(sys.sched, MessageOf(sys, step).value, id) == [status]
  {
    hide SysOk, TraceOf, Direct, Body, Apply, Possible, Considerate, Do;
    ShapeOf(sys, remote);
    SystemStepTrace(sys, step, remote, id);
    if MessageOf(sys, step).Some? {
      DirectIsShort(sys.sched, MessageOf(sys, step).value, id);
    }
  }

  lemma ShapeOf(sys: Sys, remote: Resources)
    requires SysOk(sys, remote)
    ensures Shape(sys) && |sys.logs| == |sys.handled|
  {}

  lemma DirectIsShort(s: Sched, a: Action, id: TaskId)
    ensures |Direct(s, a, id)| <= 1
  {}

  lemma EventAtCursor(sys: Sys, r: nat, remote: Resources)
    requires SysOk(sys, remote) && r < |sys.workers| && sys.handled[r] < |sys.logs[r]|
    ensures var e := sys.logs[r][sys.handled[r]];
            && e.key == sys.workers[r].key && r in Und(sys)
            && (e.Canceled? ==> r in sys.sched.cancelled)
            && (e.Completed? && IsDownload(sys.workers[r].task) ==>
                  OnDisk(sys.files, sys.workers[r].task.filePath) == remote(sys.workers[r].task.url))
            && (e.Progress? || e.Completed? ==>
                  e.totalSize == Total(sys.workers[r].task, remote(sys.workers[r].task.url)))
  {
    hide Top, Ordered, GroupsReady, WorkerOk;
    assert RunOk(sys.workers[r], sys.logs[r], sys.handled[r], r in sys.sched.cancelled,
                 FileAt(sys.files, sys.workers[r].task.filePath), remote(sys.workers[r].task.url));
    assert sys.logs[r][sys.handled[r]] in sys.logs[r];
  }

  /**
   A task's callback hears `Canceled` only when `cancel` was called with its own id: a worker's
   `Canceled` event that still finds its group always finds the pause mark too.
   */
  lemma CanceledOnlyByCancel(sys: Sys, step: Step, remote: Resources, id: TaskId)
    requires Reachable(sys, remote) && Shape(sys) && CanDo(sys, step, remote)
    requires Hears(sys, step, remote, id, Status.Canceled)
    ensures step == Command(Cancel(id))
  {
    hide Reachable, SysOk, Hears, Possible, Considerate;
    ReachableIsOk(sys, remote);
    HeardDirectly(sys, step, remote, id, Status.Canceled);
    if step.Deliver? {
      StepIndex(sys, step, remote);
      EventAtCursor(sys, step.r, remote);
      OwnedIsLive(sys, remote, id);
      LiveRunIsOwn(sys, step.r, remote);
    } else {
      NotAnEvent(sys, step, remote);
    }
  }

  lemma StepIndex(sys: Sys, step: Step, remote: Resources)
    requires Shape(sys) && CanDo(sys, step, remote) && step.Deliver?
    ensures step.r < |sys.workers| && sys.handled[step.r] < |sys.logs[step.r]|
  {}

  lemma NotAnEvent(sys: Sys, step: Step, remote: Resources)
    requires Shape(sys) && CanDo(sys, step, remote)
    ensures step.Command? ==> !step.a.Event?
  {}

  lemma OwnedIsLive(sys: Sys, remote: Resources, id: TaskId)
    requires SysOk(sys, remote) && id in sys.sched.taskIdToDedupe
    ensures sys.sched.taskIdToDedupe[id] in sys.sched.groups
  {
    hide RunsOk, GroupsReady, Ordered, CountIn;
  }

  /**
   End to end: whatever failures, retries, short replies, pauses and resumes went before, when a
   download's callback hears `Complete` its local file is the resource, byte for byte.
   */
  lemma CompleteMeansCopied(sys: Sys, step: Step, remote: Resources, id: TaskId)
    requires Reachable(sys, remote) && Shape(sys) && CanDo(sys, step, remote)
    requires Hears(sys, step, remote, id, Complete)
    ensures id in sys.sched.taskIdToDedupe && sys.sched.taskIdToDedupe[id] in sys.sched.groups
    ensures var t := sys.sched.groups[sys.sched.taskIdToDedupe[id]].leader;
            t.taskId == id &&
            (IsDownload(t) ==> OnDisk(Do(sys, step, remote).files, t.filePath) == remote(t.url))
  {
    hide Reachable, SysOk, Hears, Possible, Considerate;
    ReachableIsOk(sys, remote);
    HeardDirectly(sys, step, remote, id, Complete);
    NotAnEvent(sys, step, remote);
    StepIndex(sys, step, remote);
    EventAtCursor(sys, step.r, remote);
    OwnedIsLive(sys, remote, id);
    LiveRunIsOwn(sys, step.r, remote);
    LeaderHasId(sys, remote, id);
  }

  lemma LeaderHasId(sys: Sys, remote: Resources, id: TaskId)
    requires SysOk(sys, remote) && id in sys.sched.taskIdToDedupe && sys.sched.taskIdToDedupe[id] in sys.sched.groups
    ensures sys.sched.groups[sys.sched.taskIdToDedupe[id]].leader.taskId == id
  {
    hide RunsOk, GroupsReady, Ordered, CountIn;
  }
}
