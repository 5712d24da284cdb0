/** The sequence of statuses that a task's own callback receives over a run. */
module StatusTrace {
  import opened Basics
  import opened Sequences
  import opened SchedulerState
  import opened Invariants
  import opened Runs
  import StartOrder

  /** The statuses delivered to the callback registered with task `id`. */
  function TraceOf(log: seq<Emission>, id: TaskId): seq<Status> {
    if log == [] then []
    else
      var last := log[|log| - 1];
      TraceOf(log[..|log| - 1], id) + if last.to == id then [last.status] else []
  }

  lemma TraceSnoc(log: seq<Emission>, e: Emission, id: TaskId)
    ensures TraceOf(log + [e], id) == TraceOf(log, id) + if e.to == id then [e.status] else []
  {
    assert (log + [e])[..|log|] == log;
  }

  lemma {:induction false} UnheardHasNoTrace(log: seq<Emission>, id: TaskId)
    requires forall e :: e in log ==> e.to != id
    ensures TraceOf(log, id) == []
  {
    if log != [] {
      assert log[|log| - 1] in log;
      UnheardHasNoTrace(log[..|log| - 1], id);
    }
  }

  predicate Owns(s: Sched, id: TaskId, key: Key) {
    id in s.taskIdToDedupe && s.taskIdToDedupe[id] == key
  }

  /** What a message itself, before the start loop, tells the callback of task `id`. */
  function Direct(s: Sched, a: Action, id: TaskId): seq<Status> {
    match a
    case Enqueue(task) =>
      if task.taskId != id then []
      else if task.DedupeKey() in s.groups then [Status.Failed(DuplicateTaskError)]
      else [Pending]
    case Pause(target) => if target == id && id in s.taskIdToDedupe then [Status.Paused] else []
    case Resume(target) => if target == id && s.Resume(id).1.Ok? then [Pending] else []
    case Cancel(target) => if target == id && id in s.taskIdToDedupe then [Status.Canceled] else []
    case Close(_) => if id in s.taskIdToDedupe then [Status.Paused] else []
    case Event(e) =>
      if !Owns(s, id, e.key) then []
      else
        match e
        case Progress(_, _, _) => [Transmission]
        case Completed(_, _) => [Complete]
        case Failed(_, error) => [Status.Failed(error)]
        case Canceled(key) => if key in s.pausedSet then [] else [Status.Canceled]
  }

  /** What the start loop tells it: that its worker has been started. */
  function Started(s: Sched, s': Sched, id: TaskId): seq<Status> {
    if id in s.taskIdToDedupe && s.taskIdToDedupe[id] !in s.active && s.taskIdToDedupe[id] in s'.active
    then [Transmission] else []
  }

  // ---- the start loop ----

  lemma ExamineTrace(s: Sched, rest: seq<Key>, id: TaskId)
    requires rest != [] && rest[0] !in s.active && Identity(s.groups, s.taskIdToDedupe)
    ensures var s1 := s.Examine(rest[0]);
            TraceOf(s1.emitted, id) == TraceOf(s.emitted, id) + Started(s, s1, id)
  {
    hide TraceOf, CountIn;
    var key := rest[0];
    if key in s.groups && s.CanStart(key.dir) {
      var entry := s.groups[key].entry;
      TraceSnoc(s.emitted, Emission(entry.taskId, entry.taskId, Transmission, s.Offset(key), entry.totalSize), id);
    }
  }

  lemma PassNeverStops(s: Sched, keys: seq<Key>)
    ensures s.active.Keys <= s.ExamineAll(keys).active.Keys && s.ExamineAll(keys).taskIdToDedupe == s.taskIdToDedupe
    decreases |keys|
  {
    if keys == [] {
    } else {
      PassNeverStops(s.Examine(keys[0]), keys[1..]);
    }
  }

  lemma {:induction false} PassTrace(s: Sched, rest: seq<Key>, id: TaskId)
    requires InPass(s, rest)
    ensures TraceOf(s.ExamineAll(rest).emitted, id) == TraceOf(s.emitted, id) + Started(s, s.ExamineAll(rest), id)
    decreases |rest|
  {
    hide InPass, TraceOf;
    if rest == [] {
    } else {
      var s1 := s.Examine(rest[0]);
      StartOrder.PassHead(s, rest, Upload);
      PassHasIdentity(s, rest);
      ExamineKeepsPass(s, rest);
      ExamineTrace(s, rest, id);
      PassNeverStops(s, [rest[0]]);
      PassNeverStops(s1, rest[1..]);
      PassTrace(s1, rest[1..], id);
    }
  }

  lemma PassHasIdentity(s: Sched, rest: seq<Key>)
    requires InPass(s, rest)
    ensures Identity(s.groups, s.taskIdToDedupe)
  {}

  lemma TryStartTrace(s: Sched, id: TaskId)
    requires Core(s)
    ensures TraceOf(s.TryStart().emitted, id) == TraceOf(s.emitted, id) + Started(s, s.TryStart(), id)
  {
    hide Core, InPass, TraceOf;
    CoreStartsPass(s);
    PassTrace(s.(queued := [], queuedSet := {}), s.queued, id);
  }

  // ---- the messages themselves ----

  lemma EmitTrace(s: Sched, entry: InnerTask, status: Status, transferred: u64, total: u64, id: TaskId)
    ensures TraceOf(s.Emit(entry, status, transferred, total).emitted, id)
            == TraceOf(s.emitted, id) + if entry.taskId == id then [status] else []
  {
    TraceSnoc(s.emitted, Emission(entry.taskId, entry.taskId, status, transferred, total), id);
  }

  /** A group's callback is the callback of the task whose id owns the group's key. */
  lemma OwnerIsEntry(s: Sched, id: TaskId, key: Key)
    requires Identity(s.groups, s.taskIdToDedupe)
    ensures Owns(s, id, key) <==> key in s.groups && s.groups[key].entry.taskId == id
  {}

  lemma EmitIfLiveTrace(s: Sched, key: Key, status: Status, id: TaskId)
    requires Identity(s.groups, s.taskIdToDedupe)
    ensures TraceOf(s.EmitIfLive(key, status).emitted, id)
            == TraceOf(s.emitted, id) + if Owns(s, id, key) then [status] else []
  {
    hide TraceOf, Identity;
    OwnerIsEntry(s, id, key);
    if key in s.groups {
      EmitTrace(s, s.groups[key].entry, status, s.Offset(key), s.groups[key].entry.totalSize, id);
    }
  }

  /** Closing reports every live task once, whatever the order. */
  lemma {:induction false} EmitPausedTrace(s: Sched, order: seq<Key>, id: TaskId)
    requires Identity(s.groups, s.taskIdToDedupe) && NoDup(order)
    ensures TraceOf(s.EmitPaused(order).emitted, id) == TraceOf(s.emitted, id) +
            if id in s.taskIdToDedupe && s.taskIdToDedupe[id] in order then [Status.Paused] else []
    decreases |order|
  {
    hide TraceOf, Identity, NoDup, Elems;
    if order == [] {
    } else {
      NoDupTail(order);
      assert order == [order[0]] + order[1..];
      EmitIfLiveTrace(s, order[0], Status.Paused, id);
      EmitPausedTrace(s.EmitIfLive(order[0], Status.Paused), order[1..], id);
    }
  }

  lemma HandleTrace(s: Sched, e: WorkerEvent, id: TaskId)
    requires Identity(s.groups, s.taskIdToDedupe)
    ensures TraceOf(s.Handle(e).emitted, id) == TraceOf(s.emitted, id) + Direct(s, Event(e), id)
  {
    hide TraceOf, Identity;
    OwnerIsEntry(s, id, e.key);
    if e.key in s.groups {
      var entry := s.groups[e.key].entry;
      match e
      case Progress(_, nextOffset, totalSize) => EmitTrace(s, entry, Transmission, nextOffset, totalSize, id);
      case Completed(_, totalSize) => EmitTrace(s, entry, Complete, totalSize, totalSize, id);
      case Failed(key, error) => EmitTrace(s, entry, Status.Failed(error), s.Offset(key), entry.totalSize, id);
      case Canceled(key) => EmitTrace(s, entry, Status.Canceled, s.Offset(key), entry.totalSize, id);
    }
  }

  lemma PauseTrace(s: Sched, key: Key, id: TaskId)
    requires Identity(s.groups, s.taskIdToDedupe)
    ensures TraceOf(s.PauseGroup(key).emitted, id)
            == TraceOf(s.emitted, id) + if Owns(s, id, key) then [Status.Paused] else []
  {
    hide TraceOf, Keep, Elems, Identity, CountIn, Sched.EmitIfLive;
    var s1 := s.Stop(key).Unqueue(key);
    EmitIfLiveTrace(s1.(pausedSet := s1.pausedSet + {key}), key, Status.Paused, id);
  }

  lemma ResumeTrace(s: Sched, key: Key, id: TaskId)
    requires Identity(s.groups, s.taskIdToDedupe)
    ensures TraceOf(s.ResumeGroup(key).0.emitted, id)
            == TraceOf(s.emitted, id) + if s.ResumeGroup(key).1.Ok? && Owns(s, id, key) then [Pending] else []
  {
    hide TraceOf, Identity, CountIn, Sched.EmitIfLive;
    EmitIfLiveTrace(s.(pausedSet := s.pausedSet - {key}), key, Pending, id);
  }

  lemma CancelEmits(s: Sched, key: Key)
    ensures s.CancelGroup(key).emitted ==
            if key in s.groups then
              var entry := s.groups[key].entry;
              s.Emit(entry, Status.Canceled, s.Offset(key), entry.totalSize).emitted
            else s.emitted
  {
    hide Keep, Elems, CountIn;
  }

  lemma CancelTrace(s: Sched, key: Key, id: TaskId)
    requires Identity(s.groups, s.taskIdToDedupe)
    ensures TraceOf(s.CancelGroup(key).emitted, id)
            == TraceOf(s.emitted, id) + if Owns(s, id, key) then [Status.Canceled] else []
  {
    hide TraceOf, Identity, CountIn, Sched.CancelGroup, Sched.Emit;
    CancelEmits(s, key);
    OwnerIsEntry(s, id, key);
    if key in s.groups {
      var entry := s.groups[key].entry;
      EmitTrace(s, entry, Status.Canceled, s.Offset(key), entry.totalSize, id);
    }
  }

  /** Ids and keys being one to one, the callback that hears a command is that of its id. */
  lemma OneIdOwns(s: Sched, id: TaskId, other: TaskId)
    requires Identity(s.groups, s.taskIdToDedupe) && id in s.taskIdToDedupe
    ensures Owns(s, other, s.taskIdToDedupe[id]) <==> other == id
  {}

  lemma ControlTrace(s: Sched, a: Action, id: TaskId)
    requires Core(s) && (a.Pause? || a.Resume? || a.Cancel?)
    ensures TraceOf(Body(s, a).emitted, id) == TraceOf(s.emitted, id) + Direct(s, a, id)
  {
    hide TraceOf, QueueMirror, Phases, Tokens, Bounded, Identity, Owns, CountIn, Sched.TryStart;
    hide Sched.PauseGroup, Sched.ResumeGroup, Sched.CancelGroup;
    if a.id in s.taskIdToDedupe {
      var key := s.taskIdToDedupe[a.id];
      OneIdOwns(s, a.id, id);
      match a
      case Pause(_) => PauseTrace(s, key, id);
      case Resume(_) => ResumeTrace(s, key, id);
      case Cancel(_) => CancelTrace(s, key, id);
    }
  }

  lemma AdmitTrace(s: Sched, task: InnerTask, id: TaskId)
    requires task.DedupeKey() !in s.groups && s.active.Keys <= s.groups.Keys
    ensures TraceOf(s.Admit(task).emitted, id) == TraceOf(s.emitted, id) + if task.taskId == id then [Pending] else []
  {
    hide TraceOf;
    EmitTrace(s, task, Pending, s.Offset(task.DedupeKey()), task.totalSize, id);
  }

  lemma BodyTrace(s: Sched, a: Action, id: TaskId)
    requires Core(s) && Allowed(s, a)
    ensures TraceOf(Body(s, a).emitted, id) == TraceOf(s.emitted, id) + Direct(s, a, id)
  {
    match a
    case Enqueue(task) =>
      if task.DedupeKey() in s.groups {
        TraceSnoc(s.emitted, s.Reject(task).emitted[|s.emitted|], id);
      } else {
        AdmitTrace(s, task, id);
      }
    case Close(order) =>
      var s1 := s.(cancelled := s.cancelled + s.active.Values);
      EmitPausedTrace(s1, order, id);
      assert id in s.taskIdToDedupe ==> s.taskIdToDedupe[id] in Elems(order);
    case Event(e) => HandleTrace(s, e, id);
    case _ => ControlTrace(s, a, id);
  }

  /**
   Every callback, exactly: a step adds what its message says directly, then one `Transmission` if
   it started the task's worker, and nothing else.
   */
  lemma StepTrace(s: Sched, a: Action, id: TaskId)
    requires Top(s) && Allowed(s, a)
    ensures TraceOf(Apply(s, a).emitted, id) == TraceOf(s.emitted, id) +
            if s.closed then [] else Direct(s, a, id) + Started(Body(s, a), Apply(s, a), id)
  {
    hide Top, Core, TraceOf, Direct, Body;
    if !s.closed {
      TopIsCore(s);
      BodyTrace(s, a, id);
      BodyKeepsCore(s, a);
      ApplyIsBodyThenStart(s, a);
      TryStartTrace(Body(s, a), id);
    }
  }

  // ---- the shape of a whole trace ----

  ghost predicate NoTerminal(trace: seq<Status>) {
    forall i :: 0 <= i < |trace| ==> !trace[i].IsTerminal()
  }

  /** A task that has been accepted and is not over. */
  ghost predicate Running(trace: seq<Status>) {
    trace != [] && trace[0] == Pending && NoTerminal(trace)
  }

  /** A task that has been accepted and is over: its one terminal status is the last one. */
  ghost predicate Finished(trace: seq<Status>) {
    |trace| > 1 && Running(trace[..|trace| - 1]) && trace[|trace| - 1].IsTerminal()
  }

  /** The trace of task `id` in a reachable state. */
  ghost predicate TraceOk(s: Sched, id: TaskId) {
    var trace := TraceOf(s.emitted, id);
    if id in s.taskIdToDedupe then Running(trace)
    else
      || trace == []
      || trace == [Status.Failed(DuplicateTaskError)]
      || Finished(trace)
      || (s.closed && Running(trace))
  }

  /** Whether task `id` is controllable after a message. */
  predicate LiveAfter(s: Sched, a: Action, id: TaskId) {
    match a
    case Enqueue(task) => id in s.taskIdToDedupe || (task.taskId == id && task.DedupeKey() !in s.groups)
    case Cancel(target) => id in s.taskIdToDedupe && target != id
    case Close(_) => false
    case Event(e) =>
      && id in s.taskIdToDedupe
      && !(Owns(s, id, e.key) && (e.Completed? || e.Failed? || (e.Canceled? && e.key !in s.pausedSet)))
    case _ => id in s.taskIdToDedupe
  }

  lemma WhoIsLive(s: Sched, a: Action, id: TaskId)
    requires Core(s) && Allowed(s, a)
    ensures id in Body(s, a).taskIdToDedupe <==> LiveAfter(s, a, id)
  {
    hide QueueMirror, Phases, Tokens, Bounded, Keep, Elems, NoDup;
    hide Sched.Admit, Sched.PauseGroup, Sched.ResumeGroup, Sched.CancelGroup, Sched.Close, Sched.Handle;
    match a
    case Enqueue(task) => AdmitIds(s, task);
    case Pause(target) =>
      if target in s.taskIdToDedupe {
        PauseResumeIds(s, s.taskIdToDedupe[target]);
      }
    case Resume(target) =>
      if target in s.taskIdToDedupe {
        PauseResumeIds(s, s.taskIdToDedupe[target]);
      }
    case Cancel(target) =>
      if target in s.taskIdToDedupe {
        CancelIds(s, s.taskIdToDedupe[target]);
      }
    case Close(order) => CloseIds(s, order);
    case Event(e) => HandleIds(s, e);
  }

  lemma AdmitIds(s: Sched, task: InnerTask)
    ensures s.Admit(task).taskIdToDedupe == s.taskIdToDedupe[task.taskId := task.DedupeKey()]
  {}

  lemma PauseResumeIds(s: Sched, key: Key)
    ensures s.PauseGroup(key).taskIdToDedupe == s.taskIdToDedupe == s.ResumeGroup(key).0.taskIdToDedupe
  {
    hide Sched.PauseGroup, Sched.ResumeGroup;
    PauseIds(s, key);
    ResumeIds(s, key);
  }

  lemma PauseIds(s: Sched, key: Key)
    ensures s.PauseGroup(key).taskIdToDedupe == s.taskIdToDedupe
  {
    hide CountIn, Keep, Elems, Sched.EmitIfLive;
    var s1 := s.Stop(key).Unqueue(key);
    LiveIds(s1.(pausedSet := s1.pausedSet + {key}), key, Status.Paused);
  }

  lemma LiveIds(s: Sched, key: Key, status: Status)
    ensures s.EmitIfLive(key, status).taskIdToDedupe == s.taskIdToDedupe
  {
    hide CountIn, Sched.Offset;
  }

  lemma ResumeIds(s: Sched, key: Key)
    ensures s.ResumeGroup(key).0.taskIdToDedupe == s.taskIdToDedupe
  {
    hide CountIn, Sched.Offset;
  }

  lemma CloseIds(s: Sched, order: seq<Key>)
    ensures s.Close(order).taskIdToDedupe == map[]
  {}

  lemma CancelIds(s: Sched, key: Key)
    requires key in s.groups
    ensures s.CancelGroup(key).taskIdToDedupe == s.taskIdToDedupe - {s.groups[key].leader.taskId}
  {}

  lemma HandleIds(s: Sched, e: WorkerEvent)
    ensures s.Handle(e).taskIdToDedupe ==
            if e.key in s.groups && (e.Completed? || e.Failed? || (e.Canceled? && e.key !in s.pausedSet))
            then s.taskIdToDedupe - {s.groups[e.key].leader.taskId} else s.taskIdToDedupe
  {
    hide CountIn, Sched.Offset, Sched.Emit;
    forall t: Sched, entry: InnerTask, status: Status, transferred: u64, total: u64
      ensures t.Emit(entry, status, transferred, total).taskIdToDedupe == t.taskIdToDedupe
    {
      EmitOnlyEmits(t, entry, status, transferred, total);
    }
  }

  lemma EmitOnlyEmits(s: Sched, entry: InnerTask, status: Status, transferred: u64, total: u64)
    ensures s.Emit(entry, status, transferred, total)
            == s.(emitted := s.Emit(entry, status, transferred, total).emitted)
  {}

  /** What a message and the start loop after it mean for one callback. */
  lemma StepFacts(s: Sched, a: Action, id: TaskId)
    requires Top(s) && Allowed(s, a) && !s.closed
    ensures TraceOf(Apply(s, a).emitted, id) == TraceOf(s.emitted, id) + Direct(s, a, id) + Started(Body(s, a),
                                                                                                    Apply(s, a), id)
    ensures id in Apply(s, a).taskIdToDedupe <==> LiveAfter(s, a, id)
    ensures Started(Body(s, a), Apply(s, a), id) != [] ==> LiveAfter(s, a, id)
    ensures if a.Enqueue? && a.task.taskId == id then TraceOf(s.emitted, id) == []
            else Direct(s, a, id) != [] ==> id in s.taskIdToDedupe
    ensures Apply(s, a).closed <==> a.Close?
  {
    hide Top, Core, TraceOf, Body, Direct, LiveAfter;
    StepTrace(s, a, id);
    TopIsCore(s);
    WhoIsLive(s, a, id);
    ApplyIsBodyThenStart(s, a);
    PassNeverStops(Body(s, a).(queued := [], queuedSet := {}), Body(s, a).queued);
    StepCloses(s, a);
    OnlyLiveHear(s, a, id);
    if a.Enqueue? && a.task.taskId == id {
      UnheardHasNoTrace(s.emitted, id);
    }
  }

  lemma StepKeepsTraceOk(s: Sched, a: Action, id: TaskId)
    requires Top(s) && Allowed(s, a) && TraceOk(s, id)
    ensures TraceOk(Apply(s, a), id)
    ensures TraceOf(s.emitted, id) <= TraceOf(Apply(s, a).emitted, id)
    ensures TraceOf(s.emitted, id) != [] && id !in s.taskIdToDedupe ==>
              TraceOf(Apply(s, a).emitted, id) == TraceOf(s.emitted, id)
  {
    hide Top, TraceOf, Body, Apply, Fresh, Sched.Resume;
    if s.closed {
      ClosedIsStuck(s, a);
    } else {
      StepFacts(s, a, id);
    }
  }

  lemma OnlyLiveHear(s: Sched, a: Action, id: TaskId)
    ensures Direct(s, a, id) != [] ==> id in s.taskIdToDedupe || (a.Enqueue? && a.task.taskId == id)
  {}

  lemma StepCloses(s: Sched, a: Action)
    requires !s.closed
    ensures Body(s, a).TryStart().closed <==> a.Close?
  {
    hide Body, Sched.ExamineAll;
    BodyCloses(s, a);
    StartOrder.PassFrame(Body(s, a).(queued := [], queuedSet := {}), Body(s, a).queued);
  }

  lemma BodyCloses(s: Sched, a: Action)
    requires !s.closed
    ensures Body(s, a).closed <==> a.Close?
  {
    hide Keep, Elems, CountIn, Sched.Stop, Sched.Unqueue;
    forall t: Sched, key: Key ensures t.Stop(key).closed == t.closed && t.Unqueue(key).closed == t.closed {
      StopCloses(t, key);
    }
  }

  lemma StopCloses(s: Sched, key: Key)
    ensures s.Stop(key).closed == s.closed && s.Unqueue(key).closed == s.closed
  {}

  lemma ClosedIsStuck(s: Sched, a: Action)
    requires s.closed
    ensures Apply(s, a) == s
  {}

  /** The messages that a task's callback hears as `Pending`: its acceptance and its successful resumes. */
  predicate MakesPending(s: Sched, a: Action, id: TaskId) {
    || (a.Enqueue? && a.task.taskId == id && a.task.DedupeKey() !in s.groups)
    || (a.Resume? && a.id == id && s.Resume(id).1.Ok?)
  }

  function PendingsIn(trace: seq<Status>): nat {
    if trace == [] then 0
    else PendingsIn(trace[..|trace| - 1]) + if trace[|trace| - 1] == Pending then 1 else 0
  }

  /** How many of a run's messages make task `id` pending. */
  function PendingMessages(s: Sched, actions: seq<Action>, id: TaskId): nat
    decreases |actions|
  {
    if actions == [] then 0
    else
      (if !s.closed && MakesPending(s, actions[0], id) then 1 else 0) +
      PendingMessages(Apply(s, actions[0]), actions[1..], id)
  }

  lemma {:induction false} PendingsAppend(a: seq<Status>, b: seq<Status>)
    ensures PendingsIn(a + b) == PendingsIn(a) + PendingsIn(b)
  {
    if b == [] {
      assert a + b == a;
    } else {
      assert (a + b)[..|a + b| - 1] == a + b[..|b| - 1];
      PendingsAppend(a, b[..|b| - 1]);
    }
  }

  lemma StepPendings(s: Sched, a: Action, id: TaskId)
    requires Top(s) && Allowed(s, a)
    ensures PendingsIn(TraceOf(Apply(s, a).emitted, id)) ==
            PendingsIn(TraceOf(s.emitted, id)) + if !s.closed && MakesPending(s, a, id) then 1 else 0
  {
    hide Top, TraceOf, Body, Sched.Resume;
    StepTrace(s, a, id);
    var before, direct, started := TraceOf(s.emitted, id), Direct(s, a, id), Started(Body(s, a), Apply(s, a), id);
    PendingsAppend(before, direct + started);
    PendingsAppend(direct, started);
    assert PendingsIn([]) == 0;
    assert forall x: Status {:trigger PendingsIn([x])} :: PendingsIn([x]) == if x == Pending then 1 else 0;
  }

  lemma {:induction false} RunKeepsTraces(s: Sched, actions: seq<Action>, id: TaskId)
    requires Top(s) && AllAllowed(s, actions) && TraceOk(s, id)
    ensures TraceOk(Exec(s, actions), id)
    ensures TraceOf(s.emitted, id) <= TraceOf(Exec(s, actions).emitted, id)
    ensures TraceOf(s.emitted, id) != [] && id !in s.taskIdToDedupe ==>
              TraceOf(Exec(s, actions).emitted, id) == TraceOf(s.emitted, id)
    ensures PendingsIn(TraceOf(Exec(s, actions).emitted, id)) ==
            PendingsIn(TraceOf(s.emitted, id)) + PendingMessages(s, actions, id)
    decreases |actions|
  {
    hide Top, TraceOf, TraceOk, PendingsIn, Apply, MakesPending;
    if actions == [] {
    } else {
      var s1 := Apply(s, actions[0]);
      ApplyKeepsTop(s, actions[0]);
      StepKeepsTraceOk(s, actions[0], id);
      StepPendings(s, actions[0], id);
      if TraceOf(s.emitted, id) != [] && id !in s.taskIdToDedupe {
        OverIsOver(s, actions[0], id);
      }
      RunKeepsTraces(s1, actions[1..], id);
    }
  }

  /** An id that has been used and is not live does not become live again. */
  lemma OverIsOver(s: Sched, a: Action, id: TaskId)
    requires Top(s) && Allowed(s, a) && TraceOf(s.emitted, id) != [] && id !in s.taskIdToDedupe
    ensures id !in Apply(s, a).taskIdToDedupe
  {
    hide Top, TraceOf, Body, Direct, Fresh;
    if !s.closed {
      StepFacts(s, a, id);
    }
  }

  /**
   The life of a task as its own callback sees it, over any run: an accepted task's trace begins with
   `Pending`, has at most one terminal status and nothing after it, and has one `Pending` for its
   acceptance and one for each successful resume; a rejected duplicate hears exactly one `Failed`.
   */
  lemma CallbackTraces(maxUpload: nat, maxDownload: nat, actions: seq<Action>, id: TaskId)
    requires AllAllowed(New(maxUpload, maxDownload), actions)
    ensures var s := Exec(New(maxUpload, maxDownload), actions);
            var trace := TraceOf(s.emitted, id);
            && (id in s.taskIdToDedupe ==> Running(trace))
            && (id !in s.taskIdToDedupe ==>
                  || trace == [] || trace == [Status.Failed(DuplicateTaskError)]
                  || Finished(trace) || (s.closed && Running(trace)))
            && PendingsIn(trace) == PendingMessages(New(maxUpload, maxDownload), actions, id)
  {
    NewTop(maxUpload, maxDownload);
    RunKeepsTraces(New(maxUpload, maxDownload), actions, id);
  }

  /** Once a task's callback has heard a terminal status it hears nothing more, however the run goes on. */
  lemma NothingAfterTheEnd(maxUpload: nat, maxDownload: nat, actions: seq<Action>, more: seq<Action>, id: TaskId)
    requires AllAllowed(New(maxUpload, maxDownload), actions)
    requires AllAllowed(Exec(New(maxUpload, maxDownload), actions), more)
    ensures var s := Exec(New(maxUpload, maxDownload), actions);
            var trace := TraceOf(s.emitted, id);
            trace != [] && trace[|trace| - 1].IsTerminal() ==> TraceOf(Exec(s, more).emitted, id) == trace
  {
    var s := Exec(New(maxUpload, maxDownload), actions);
    NewTop(maxUpload, maxDownload);
    RunKeepsTop(New(maxUpload, maxDownload), actions);
    RunKeepsTraces(New(maxUpload, maxDownload), actions, id);
    RunKeepsTraces(s, more, id);
  }

  /** A duplicate's callback hears `Failed(DuplicateTaskError)` once, and never anything else. */
  lemma RejectedHearsOnce(maxUpload: nat, maxDownload: nat, actions: seq<Action>, task: InnerTask, more: seq<Action>)
    requires AllAllowed(New(maxUpload, maxDownload), actions)
    requires var s := Exec(New(maxUpload, maxDownload), actions);
             && !s.closed && task.DedupeKey() in s.groups && Allowed(s, Enqueue(task))
             && AllAllowed(Apply(s, Enqueue(task)), more)
    ensures var s1 := Apply(Exec(New(maxUpload, maxDownload), actions), Enqueue(task));
            TraceOf(Exec(s1, more).emitted, task.taskId) == [Status.Failed(DuplicateTaskError)]
  {
    hide Top, TraceOf, Body, Direct, LiveAfter, Started, Exec, Apply, AllAllowed;
    var s, a := Exec(New(maxUpload, maxDownload), actions), Enqueue(task);
    NewTop(maxUpload, maxDownload);
    RunKeepsTop(New(maxUpload, maxDownload), actions);
    ApplyKeepsTop(s, a);
    StepFacts(s, a, task.taskId);
    RejectedFacts(s, task);
    RunKeepsTraces(Apply(s, a), more, task.taskId);
  }

  lemma RejectedFacts(s: Sched, task: InnerTask)
    requires task.DedupeKey() in s.groups && Allowed(s, Enqueue(task))
    ensures Direct(s, Enqueue(task), task.taskId) == [Status.Failed(DuplicateTaskError)]
    ensures !LiveAfter(s, Enqueue(task), task.taskId)
  {}
}
