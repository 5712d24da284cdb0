/** Runs of the command loop: any sequence of commands and of worker events, stale ones included. */
module Runs {
  import opened Basics
  import opened Sequences
  import opened SchedulerState
  import opened Invariants
  import StartOrder

  datatype Action =
    | Enqueue(task: InnerTask)
    | Pause(id: TaskId)
    | Resume(id: TaskId)
    | Cancel(id: TaskId)
    | Close(order: seq<Key>)
    | Event(event: WorkerEvent)

  /** One message of the command loop; after `Close` the loop has exited. */
  function Apply(s: Sched, a: Action): Sched {
    if s.closed then s
    else
      match a
      case Enqueue(task) => s.Enqueue(task)
      case Pause(id) => s.Pause(id).0
      case Resume(id) => s.Resume(id).0
      case Cancel(id) => s.Cancel(id).0
      case Close(order) => s.Close(order)
      case Event(event) => s.Event(event)
  }

  /** No task with this id was ever enqueued. */
  ghost predicate Fresh(s: Sched, id: TaskId) {
    id !in s.taskIdToDedupe && forall e :: e in s.emitted ==> e.to != id
  }

  /** Task ids are drawn fresh; `Close` walks the groups in some order. */
  ghost predicate Allowed(s: Sched, a: Action) {
    match a
    case Enqueue(task) => Fresh(s, task.taskId)
    case Close(order) => NoDup(order) && Elems(order) == s.groups.Keys
    case _ => true
  }

  function Exec(s: Sched, actions: seq<Action>): Sched
    decreases |actions|
  {
    if actions == [] then s else Exec(Apply(s, actions[0]), actions[1..])
  }

  ghost predicate AllAllowed(s: Sched, actions: seq<Action>)
    decreases |actions|
  {
    actions == [] || (Allowed(s, actions[0]) && AllAllowed(Apply(s, actions[0]), actions[1..]))
  }

  /** What a message does before the start loop runs. */
  function Body(s: Sched, a: Action): Sched {
    match a
    case Enqueue(task) => if task.DedupeKey() in s.groups then s.Reject(task) else s.Admit(task)
    case Pause(id) => if id in s.taskIdToDedupe then s.PauseGroup(s.taskIdToDedupe[id]) else s
    case Resume(id) => if id in s.taskIdToDedupe then s.ResumeGroup(s.taskIdToDedupe[id]).0 else s
    case Cancel(id) => if id in s.taskIdToDedupe then s.CancelGroup(s.taskIdToDedupe[id]) else s
    case Close(order) => s.Close(order)
    case Event(event) => s.Handle(event)
  }

  lemma BodyKeepsCore(s: Sched, a: Action)
    requires Top(s) && Allowed(s, a)
    ensures Core(Body(s, a))
  {
    hide Core, WorkConserving;
    match a
    case Enqueue(task) =>
      if task.DedupeKey() in s.groups {
        RejectKeepsTop(s, task);
      } else {
        AdmitKeepsCore(s, task);
      }
    case Pause(id) =>
      if id in s.taskIdToDedupe {
        KnownIdIsLive(s, id);
        PauseGroupKeepsCore(s, s.taskIdToDedupe[id]);
      }
    case Resume(id) =>
      if id in s.taskIdToDedupe {
        ResumeGroupKeepsCore(s, s.taskIdToDedupe[id]);
      }
    case Cancel(id) =>
      if id in s.taskIdToDedupe {
        CancelGroupKeepsCore(s, s.taskIdToDedupe[id]);
      }
    case Close(order) =>
      CloseKeepsTop(s, order);
    case Event(event) =>
      HandleKeepsCore(s, event);
  }

  /** Running the start loop after a rejected enqueue or a close would change nothing either. */
  lemma ApplyIsBodyThenStart(s: Sched, a: Action)
    requires Top(s) && Allowed(s, a) && !s.closed
    ensures Apply(s, a) == Body(s, a).TryStart()
  {
    hide Top, Core;
    match a
    case Enqueue(task) =>
      if task.DedupeKey() in s.groups {
        RejectKeepsTop(s, task);
        StartOrder.SecondRoundStartsNothing(s.Reject(task));
      }
    case Close(order) =>
      TopIsCore(s);
      CloseKeepsTop(s, order);
      StartOrder.SecondRoundStartsNothing(s.Close(order));
    case _ =>
  }

  lemma ApplyKeepsTop(s: Sched, a: Action)
    requires Top(s) && Allowed(s, a)
    ensures Top(Apply(s, a))
  {
    hide Top, Core;
    if !s.closed {
      BodyKeepsCore(s, a);
      ApplyIsBodyThenStart(s, a);
      TryStartReachesTop(Body(s, a));
    }
  }

  lemma RejectKeepsTop(s: Sched, task: InnerTask)
    requires Top(s) && task.DedupeKey() in s.groups
    ensures Top(s.Reject(task))
  {
    hide QueueMirror, Phases, Identity, Tokens, Bounded, CountIn;
  }

  lemma KnownIdIsLive(s: Sched, id: TaskId)
    requires Core(s) && id in s.taskIdToDedupe
    ensures s.taskIdToDedupe[id] in s.groups && s.groups[s.taskIdToDedupe[id]].leader.taskId == id
  {}

  /** A report starts nothing: no slot has become free. */
  lemma ReportStartsNothing(s: Sched, e: WorkerEvent)
    requires Top(s) && !s.closed && e.Progress?
    ensures Apply(s, Event(e)) == s.Handle(e) && s.Handle(e).spawned == s.spawned && !s.Handle(e).closed
    ensures Top(s.Handle(e)) && s.Handle(e).taskIdToDedupe == s.taskIdToDedupe && s.Handle(e).pausedSet == s.pausedSet
  {
    hide Sched.TryStart, Core, CountIn;
    ReportKeepsTop(s, e);
    StartOrder.SecondRoundStartsNothing(s.Handle(e));
  }

  lemma ReportKeepsTop(s: Sched, e: WorkerEvent)
    requires Top(s) && e.Progress?
    ensures Top(s.Handle(e))
  {
    hide CountIn, QueueMirror, Phases, Identity, Tokens, Bounded;
  }

  lemma {:induction false} RunKeepsTop(s: Sched, actions: seq<Action>)
    requires Top(s) && AllAllowed(s, actions)
    ensures Top(Exec(s, actions))
    decreases |actions|
  {
    if actions == [] {
    } else {
      ApplyKeepsTop(s, actions[0]);
      RunKeepsTop(Apply(s, actions[0]), actions[1..]);
    }
  }

  // ---- what the invariant means for a user of the library ----

  function Count(b: bool): nat {
    if b then 1 else 0
  }

  /** A task is queued, running, stopping or paused: exactly one of them. A key without a task is nowhere. */
  ghost predicate ExactlyOnePhase(s: Sched, k: Key) {
    if k in s.groups then
      Count(k in s.queued && k !in s.active && k !in s.pausedSet) +
      Count(k !in s.queued && k in s.active && k !in s.pausedSet) +
      Count(k !in s.queued && k in s.active && k in s.pausedSet) +
      Count(k !in s.queued && k !in s.active && k in s.pausedSet)
      == 1
    else
      k !in s.queued && k !in s.active && k !in s.pausedSet
  }

  lemma NoTaskIsLost(maxUpload: nat, maxDownload: nat, actions: seq<Action>)
    requires AllAllowed(New(maxUpload, maxDownload), actions)
    ensures var s := Exec(New(maxUpload, maxDownload), actions);
            NoDup(s.queued) && forall k :: ExactlyOnePhase(s, k) && (k in s.queuedSet <==> k in s.queued)
  {
    var s := Exec(New(maxUpload, maxDownload), actions);
    NewTop(maxUpload, maxDownload);
    RunKeepsTop(New(maxUpload, maxDownload), actions);
    forall k ensures ExactlyOnePhase(s, k) && (k in s.queuedSet <==> k in s.queued) && NoDup(s.queued) {
      PhasesAreExclusive(s, k);
    }
  }

  lemma PhasesAreExclusive(s: Sched, k: Key)
    requires Top(s)
    ensures ExactlyOnePhase(s, k) && (k in s.queuedSet <==> k in s.queued) && NoDup(s.queued)
  {
    hide Identity, Tokens, Bounded, CountIn;
  }

  lemma {:induction false} MaxNeverChanges(s: Sched, actions: seq<Action>)
    requires Top(s) && AllAllowed(s, actions)
    ensures Exec(s, actions).maxUpload == s.maxUpload && Exec(s, actions).maxDownload == s.maxDownload
    decreases |actions|
  {
    if actions == [] {
    } else {
      ApplyKeepsMax(s, actions[0]);
      ApplyKeepsTop(s, actions[0]);
      MaxNeverChanges(Apply(s, actions[0]), actions[1..]);
    }
  }

  lemma ApplyKeepsMax(s: Sched, a: Action)
    requires Top(s) && Allowed(s, a)
    ensures Apply(s, a).maxUpload == s.maxUpload && Apply(s, a).maxDownload == s.maxDownload
  {
    hide Top, Core;
    if !s.closed {
      ApplyIsBodyThenStart(s, a);
      BodyEdits(s, a);
      StartOrder.PassFrame(Body(s, a).(queued := [], queuedSet := {}), Body(s, a).queued);
    }
  }

  ghost predicate SameLimits(s: Sched, s': Sched) {
    s'.maxUpload == s.maxUpload && s'.maxDownload == s.maxDownload
  }

  /** A message leaves the queue alone, appends one key, removes one key, or (close) empties it. */
  ghost predicate QueueEdit(q: seq<Key>, q': seq<Key>) {
    || q' == q || q' == []
    || (exists k :: q' == q + [k])
    || (exists k :: q' == Keep(q, Elems(q) - {k}))
  }

  lemma BodyEdits(s: Sched, a: Action)
    ensures SameLimits(s, Body(s, a)) && QueueEdit(s.queued, Body(s, a).queued)
  {
    hide Sched.PauseGroup, Sched.CancelGroup, Sched.ResumeGroup, Sched.Handle, Sched.Close, Sched.Admit, QueueEdit;
    match a
    case Enqueue(task) =>
      AdmitEdit(s, task);
      NoEdit(s.queued);
    case Pause(id) =>
      NoEdit(s.queued);
      if id in s.taskIdToDedupe {
        PauseEdit(s, s.taskIdToDedupe[id]);
      }
    case Resume(id) =>
      NoEdit(s.queued);
      if id in s.taskIdToDedupe {
        ResumeEdit(s, s.taskIdToDedupe[id]);
      }
    case Cancel(id) =>
      NoEdit(s.queued);
      if id in s.taskIdToDedupe {
        CancelEdit(s, s.taskIdToDedupe[id]);
      }
    case Close(order) => CloseEdit(s, order);
    case Event(event) => HandleEdit(s, event);
  }

  lemma NoEdit(q: seq<Key>)
    ensures QueueEdit(q, q)
  {}

  lemma AdmitEdit(s: Sched, task: InnerTask)
    ensures SameLimits(s, s.Admit(task)) && QueueEdit(s.queued, s.Admit(task).queued)
  {}

  lemma PauseEdit(s: Sched, key: Key)
    ensures SameLimits(s, s.PauseGroup(key)) && QueueEdit(s.queued, s.PauseGroup(key).queued)
  {}

  lemma ResumeEdit(s: Sched, key: Key)
    ensures SameLimits(s, s.ResumeGroup(key).0) && QueueEdit(s.queued, s.ResumeGroup(key).0.queued)
  {}

  lemma CancelEdit(s: Sched, key: Key)
    ensures SameLimits(s, s.CancelGroup(key)) && QueueEdit(s.queued, s.CancelGroup(key).queued)
  {}

  lemma CloseEdit(s: Sched, order: seq<Key>)
    ensures SameLimits(s, s.Close(order)) && QueueEdit(s.queued, s.Close(order).queued)
  {
    EmitPausedOnlyEmits(s.(cancelled := s.cancelled + s.active.Values), order);
  }

  lemma HandleEdit(s: Sched, e: WorkerEvent)
    ensures SameLimits(s, s.Handle(e)) && QueueEdit(s.queued, s.Handle(e).queued)
  {
    hide CountIn, QueueEdit, Sched.Offset;
    NoEdit(s.queued);
  }

  /**
   In each direction at most `max` workers count as active, and a task waits only while exactly
   `max` do: a full direction never holds back the other one.
   */
  lemma LimitedAndWorkConserving(maxUpload: nat, maxDownload: nat, actions: seq<Action>, d: Direction)
    requires AllAllowed(New(maxUpload, maxDownload), actions)
    ensures var s := Exec(New(maxUpload, maxDownload), actions);
            var max := if d == Upload then maxUpload else maxDownload;
            && CountIn(s.active, d) <= max
            && ((exists k :: k in s.queued && k.dir == d) ==> CountIn(s.active, d) == max)
  {
    NewTop(maxUpload, maxDownload);
    RunKeepsTop(New(maxUpload, maxDownload), actions);
    MaxNeverChanges(New(maxUpload, maxDownload), actions);
    hide CountIn;
  }

  /** A running worker's token is cancelled exactly when its task is marked paused. */
  lemma StopSignalsMatchPauseMarks(maxUpload: nat, maxDownload: nat, actions: seq<Action>, k: Key)
    requires AllAllowed(New(maxUpload, maxDownload), actions)
    requires k in Exec(New(maxUpload, maxDownload), actions).active
    ensures var s := Exec(New(maxUpload, maxDownload), actions);
            s.active[k] in s.cancelled <==> k in s.pausedSet
  {
    NewTop(maxUpload, maxDownload);
    RunKeepsTop(New(maxUpload, maxDownload), actions);
    hide CountIn;
  }

  /** The leader of a group is known by its id, and its id leads back to the group. */
  predicate LeadsBack(s: Sched, k: Key)
    requires k in s.groups
  {
    var leader := s.groups[k].leader;
    leader.taskId in s.taskIdToDedupe && s.taskIdToDedupe[leader.taskId] == k && leader.DedupeKey() == k
  }

  /**
   An id controls a task iff that task's group is live, and then it is the group's own id, and no other
   group has it: ids and groups are mutually inverse. Two live groups never do the same work, and a group's direction is
   its task's. So the "group missing" branch of resume and the "already running" branch of enqueue are never taken.
   */
  lemma IdsMatchGroups(maxUpload: nat, maxDownload: nat, actions: seq<Action>, id: TaskId)
    requires AllAllowed(New(maxUpload, maxDownload), actions)
    ensures var s := Exec(New(maxUpload, maxDownload), actions);
            && (id in s.taskIdToDedupe <==> exists k :: k in s.groups && s.groups[k].leader.taskId == id)
            && (id in s.taskIdToDedupe ==>
                  && s.taskIdToDedupe[id] in s.groups
                  && s.groups[s.taskIdToDedupe[id]].leader.taskId == id
                  && s.groups[s.taskIdToDedupe[id]].leader.DedupeKey() == s.taskIdToDedupe[id])
            && (forall k :: k in s.groups ==> LeadsBack(s, k))
            && (forall k :: k in s.groups ==> k.dir == s.groups[k].leader.direction)
            && (forall k, k' :: k in s.groups && k' in s.groups && k != k' ==>
                  !SameWork(s.groups[k].leader, s.groups[k'].leader))
            && (forall k :: k !in s.groups ==> k !in s.active && k !in s.pausedSet)
  {
    var s := Exec(New(maxUpload, maxDownload), actions);
    NewTop(maxUpload, maxDownload);
    RunKeepsTop(New(maxUpload, maxDownload), actions);
    IdsMatch(s, id);
    OneGroupPerWork(s);
  }

  lemma OneGroupPerWork(s: Sched)
    requires forall k :: k in s.groups ==> LeadsBack(s, k)
    ensures forall k :: k in s.groups ==> k.dir == s.groups[k].leader.direction
    ensures forall k, k' :: k in s.groups && k' in s.groups && k != k' ==>
              !SameWork(s.groups[k].leader, s.groups[k'].leader)
  {
    hide SameWork, InnerTask.DedupeKey;
    forall k, k' | k in s.groups && k' in s.groups && k != k'
      ensures !SameWork(s.groups[k].leader, s.groups[k'].leader)
    {
      assert LeadsBack(s, k) && LeadsBack(s, k');
      SameKeyIsSameWork(s.groups[k].leader, s.groups[k'].leader);
    }
    forall k | k in s.groups ensures k.dir == s.groups[k].leader.direction {
      assert LeadsBack(s, k);
    }
  }

  lemma IdsMatch(s: Sched, id: TaskId)
    requires Top(s)
    ensures id in s.taskIdToDedupe <==> exists k :: k in s.groups && s.groups[k].leader.taskId == id
    ensures id in s.taskIdToDedupe ==>
              && s.taskIdToDedupe[id] in s.groups
              && s.groups[s.taskIdToDedupe[id]].leader.taskId == id
              && s.groups[s.taskIdToDedupe[id]].leader.DedupeKey() == s.taskIdToDedupe[id]
    ensures forall k :: k in s.groups ==> LeadsBack(s, k)
    ensures forall k :: k !in s.groups ==> k !in s.active && k !in s.pausedSet
  {
    hide QueueMirror, Tokens, Bounded, CountIn;
  }

  // ---- overtaking ----

  /** How many keys of the same direction are in front of `k`. */
  function Ahead(q: seq<Key>, k: Key): nat {
    if q == [] || q[0] == k then 0
    else (if q[0].dir == k.dir then 1 else 0) + Ahead(q[1..], k)
  }

  lemma {:induction false} AheadSnoc(q: seq<Key>, x: Key, k: Key)
    requires k in q
    ensures Ahead(q + [x], k) == Ahead(q, k)
  {
    if q[0] != k {
      assert (q + [x])[1..] == q[1..] + [x];
      AheadSnoc(q[1..], x, k);
    }
  }

  lemma {:induction false} AheadKeep(q: seq<Key>, kept: set<Key>, k: Key)
    requires k in kept
    ensures Ahead(Keep(q, kept), k) <= Ahead(q, k)
  {
    if q == [] {
    } else {
      AheadKeep(q[1..], kept, k);
      if q[0] in kept {
        assert Keep(q, kept)[1..] == Keep(q[1..], kept);
      }
    }
  }

  /** A key of the queue is still where it was, or closer to the front. */
  lemma AheadAfterEdit(q: seq<Key>, q': seq<Key>, k: Key)
    requires QueueEdit(q, q') && k in q && k in q'
    ensures Ahead(q', k) <= Ahead(q, k)
  {
    hide Ahead, Keep;
    if x :| q' == q + [x] {
      AheadSnoc(q, x, k);
    } else if x :| q' == Keep(q, Elems(q) - {x}) {
      KeepElems(q, Elems(q) - {x});
      AheadKeep(q, Elems(q) - {x}, k);
    }
  }

  /** While a key stays queued, no step increases the number of same-direction keys ahead of it. */
  lemma NeverOvertaken(s: Sched, a: Action, k: Key)
    requires Top(s) && Allowed(s, a)
    requires k in s.queued && k in Apply(s, a).queued
    ensures Ahead(Apply(s, a).queued, k) <= Ahead(s.queued, k)
  {
    hide Top, Core, Ahead, Keep, Body, QueueEdit;
    if !s.closed {
      var s1 := Body(s, a);
      var kept := s1.TryStart().queuedSet;
      BodyKeepsCore(s, a);
      ApplyIsBodyThenStart(s, a);
      StartOrder.StartsExactlyTheFirst(s1, Upload);
      KeepElems(s1.queued, kept);
      AheadKeep(s1.queued, kept, k);
      BodyEdits(s, a);
      AheadAfterEdit(s.queued, s1.queued, k);
    }
  }

  ghost predicate StaysQueued(s: Sched, actions: seq<Action>, k: Key)
    decreases |actions|
  {
    k in s.queued && (actions != [] ==> StaysQueued(Apply(s, actions[0]), actions[1..], k))
  }

  lemma {:induction false} NeverOvertakenInRun(s: Sched, actions: seq<Action>, k: Key)
    requires Top(s) && AllAllowed(s, actions) && StaysQueued(s, actions, k)
    ensures Ahead(Exec(s, actions).queued, k) <= Ahead(s.queued, k)
    decreases |actions|
  {
    if actions == [] {
    } else {
      NeverOvertaken(s, actions[0], k);
      ApplyKeepsTop(s, actions[0]);
      NeverOvertakenInRun(Apply(s, actions[0]), actions[1..], k);
    }
  }
}
