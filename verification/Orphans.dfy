/**
 Why a key must not be enqueued again before its old worker is drained: worker events carry no run number, so
 an orphan's last event ends whatever task holds the key by then.
 */
module Orphans {
  import opened Basics
  import opened SchedulerState
  import opened Invariants
  import opened Runs
  import opened StatusTrace
  import opened HttpClient
  import opened Worker
  import opened WorkerSafety
  import opened Protocol
  import opened System
  import opened Offsets
  import StartOrder

  /**
   A `Canceled` event of a key ends the task that holds the key iff the key is not marked paused,
   whichever worker sent it: events carry no run number.
   */
  lemma CanceledEventEndsTask(s: Sched, key: Key, id: TaskId)
    requires Top(s) && !s.closed && Owns(s, id, key)
    ensures var s' := Apply(s, Event(WorkerEvent.Canceled(key)));
            TraceOf(s'.emitted, id) == TraceOf(s.emitted, id) + [Status.Canceled] <==> key !in s.pausedSet
    ensures id !in Apply(s, Event(WorkerEvent.Canceled(key))).taskIdToDedupe <==> key !in s.pausedSet
  {
    hide Top, Core, TraceOf, Body, Identity;
    var a := Event(WorkerEvent.Canceled(key));
    StepTrace(s, a, id);
    TopIsCore(s);
    WhoIsLive(s, a, id);
    ApplyIsBodyThenStart(s, a);
    PassNeverStops(Body(s, a).(queued := [], queuedSet := {}), Body(s, a).queued);
    assert Direct(s, a, id) == if key in s.pausedSet then [] else [Status.Canceled];
    var started := Started(Body(s, a), Apply(s, a), id);
    StartedIsShort(Body(s, a), Apply(s, a), id);
    if key !in s.pausedSet {
      assert [Status.Canceled] + started == [Status.Canceled];
    } else {
      assert [] + started == started != [Status.Canceled];
      AppendIsInjective(TraceOf(s.emitted, id), started, [Status.Canceled]);
    }
  }

  lemma AppendIsInjective<T>(a: seq<T>, b: seq<T>, c: seq<T>)
    requires b != c
    ensures a + b != a + c
  {
    assert (a + b)[|a|..] == b && (a + c)[|a|..] == c;
  }

  lemma StartedIsShort(s: Sched, s': Sched, id: TaskId)
    ensures Started(s, s', id) == [] || Started(s, s', id) == [Transmission]
    ensures id !in s.taskIdToDedupe ==> Started(s, s', id) == []
  {}

  lemma {:induction false} NoTraceIsUnheard(log: seq<Emission>, id: TaskId)
    requires TraceOf(log, id) == []
    ensures forall e :: e in log ==> e.to != id
  {
    if log != [] {
      NoTraceIsUnheard(log[..|log| - 1], id);
      assert log == log[..|log| - 1] + [log[|log| - 1]];
    }
  }

  lemma CancelFreesKey(s: Sched, id: TaskId, key: Key, other: TaskId)
    requires Top(s) && !s.closed && Owns(s, id, key) && Fresh(s, other)
    ensures var s1 := Apply(s, Cancel(id));
            key !in s1.groups && !s1.closed && Fresh(s1, other)
  {
    hide Top, Core, TraceOf, Body, Apply;
    var a := Cancel(id);
    TopIsCore(s);
    StepTrace(s, a, other);
    UnheardHasNoTrace(s.emitted, other);
    WhoIsLive(s, a, other);
    assert Started(Body(s, a), Apply(s, a), other) == [];
    NoTraceIsUnheard(Apply(s, a).emitted, other);
    ApplyIsBodyThenStart(s, a);
    CanceledBody(s, id, key);
    StartFrame(Body(s, a));
  }

  lemma CanceledBody(s: Sched, id: TaskId, key: Key)
    requires Core(s) && Owns(s, id, key) && !s.closed
    ensures key !in Body(s, Cancel(id)).groups && !Body(s, Cancel(id)).closed
  {
    hide Core, Sched.CancelGroup;
    CancelFields(s, key);
    CancelGroupIsOpen(s, key);
  }

  lemma CancelGroupIsOpen(s: Sched, key: Key)
    ensures s.CancelGroup(key).closed == s.closed
  {}

  lemma StartFrame(s: Sched)
    ensures var s' := s.TryStart();
            && s'.groups == s.groups && s'.taskIdToDedupe == s.taskIdToDedupe
            && s'.pausedSet == s.pausedSet && s'.closed == s.closed
  {
    hide Sched.ExamineAll;
    StartOrder.PassFrame(s.(queued := [], queuedSet := {}), s.queued);
  }

  lemma AdmissionOwns(s: Sched, task: InnerTask)
    requires Top(s) && !s.closed && task.DedupeKey() !in s.groups
    ensures var s' := Apply(s, Enqueue(task));
            Owns(s', task.taskId, task.DedupeKey()) && task.DedupeKey() !in s'.pausedSet && !s'.closed
  {
    hide QueueMirror, Identity, Tokens, Bounded, WorkConserving, Sched.TryStart, InnerTask.DedupeKey, CountIn;
    StartFrame(s.Admit(task));
  }

  // ---- in the system ----

  /** A step that can happen, whoever may be hurt by it. */
  ghost predicate Goes(sys: Sys, step: Step, sys': Sys, remote: Resources) {
    Shape(sys) && Possible(sys, step, remote) && sys' == Do(sys, step, remote)
  }

  /** What a task hears when an event ends it. */
  function EndOf(e: WorkerEvent): Status
    requires !e.Progress?
  {
    match e
    case Completed(_, _) => Complete
    case Failed(_, error) => Status.Failed(error)
    case Canceled(_) => Status.Canceled
  }

  /** A command leaves run `r` as it is, and every stop signal too. */
  lemma CommandGoes(sys: Sys, a: Action, r: nat, remote: Resources)
    requires Shape(sys) && Top(sys.sched) && Possible(sys, Command(a), remote) && r < |sys.workers|
    ensures var sys' := Do(sys, Command(a), remote);
            && Shape(sys') && Top(sys'.sched) && sys'.sched == Apply(sys.sched, a) && sys'.files == sys.files
            && sys.sched.cancelled <= sys'.sched.cancelled
            && r < |sys'.workers| && sys'.workers[r] == sys.workers[r] && sys'.logs[r] == sys.logs[r]
            && sys'.handled[r] == sys.handled[r]
  {
    hide Top, Apply, Und;
    ApplyGrows(sys.sched, a);
    ApplyKeepsTop(sys.sched, a);
    SpawnShape(sys, Apply(sys.sched, a));
    SpawnKeepsRuns(sys, Apply(sys.sched, a), r);
  }

  lemma CancelStops(s: Sched, id: TaskId, key: Key)
    requires Top(s) && !s.closed && Owns(s, id, key) && key in s.active
    ensures s.active[key] in Apply(s, Cancel(id)).cancelled
  {
    hide Top, Core, StartedFromGroups, Sched.TryStart;
    CancelGroupStops(s, key);
    TryStartStartsLeaders(s.CancelGroup(key));
  }

  lemma CancelGroupStops(s: Sched, key: Key)
    requires key in s.active
    ensures s.active[key] in s.CancelGroup(key).cancelled
  {
    hide CountIn, InnerTask.DedupeKey;
  }

  /** The step that ends a worker sends its one terminal event. */
  lemma LastStepSends(w: Worker, file: Option<seq<byte>>, i: Input)
    requires Fits(w, i) && Next(w, file, i).0.phase.Over?
    ensures var ev := Next(w, file, i).2; |ev| == 1 && !ev[0].Progress? && ev[0].key == w.key
  {
    hide Prepare, TransferChunk, Slices;
  }

  /**
   The last event of a run ends the task that holds the run's key, unless it is a `Canceled` and the key is
   paused.
   */
  lemma LastEventEnds(s: Sched, e: WorkerEvent, id: TaskId)
    requires Top(s) && !s.closed && Owns(s, id, e.key) && !e.Progress? && e.key !in s.pausedSet
    ensures TraceOf(Apply(s, Event(e)).emitted, id) == TraceOf(s.emitted, id) + [EndOf(e)]
    ensures id !in Apply(s, Event(e)).taskIdToDedupe
  {
    hide Top, Core, TraceOf, Body, Fresh, Apply;
    StepFacts(s, Event(e), id);
    assert Direct(s, Event(e), id) + [] == [EndOf(e)];
  }

  /** A run of steps that can happen, whoever may be hurt by them. */
  ghost predicate GoesAll(sys: Sys, steps: seq<Step>, sys': Sys, remote: Resources)
    decreases |steps|
  {
    if steps == [] then sys' == sys
    else exists sys1 :: Goes(sys, steps[0], sys1, remote) && GoesAll(sys1, steps[1..], sys', remote)
  }

  lemma GoesCons(sys: Sys, step: Step, sys1: Sys, steps: seq<Step>, sys': Sys, remote: Resources)
    requires Goes(sys, step, sys1, remote) && GoesAll(sys1, steps, sys', remote)
    ensures GoesAll(sys, [step] + steps, sys', remote)
  {
    hide Goes;
    assert ([step] + steps)[1..] == steps;
  }

  function Deliveries(r: nat, n: nat): seq<Step> {
    if n == 0 then [] else [Deliver(r)] + Deliveries(r, n - 1)
  }

  /** Run `r` has told everything it will ever tell; what is on its way are reports and then its last event. */
  ghost predicate Ending(sys: Sys, r: nat, key: Key) {
    && Shape(sys) && Top(sys.sched) && !sys.sched.closed && r < |sys.workers| && sys.handled[r] < |sys.logs[r]|
    && (forall i :: sys.handled[r] <= i < |sys.logs[r]| ==> sys.logs[r][i].key == key)
    && (forall i :: sys.handled[r] <= i < |sys.logs[r]| - 1 ==> sys.logs[r][i].Progress?)
    && !sys.logs[r][|sys.logs[r]| - 1].Progress?
  }

  lemma SpawnSame(sys: Sys, s: Sched)
    requires Shape(sys) && s.spawned == sys.sched.spawned
    ensures Spawn(sys, s) == sys.(sched := s)
  {
    var sys' := Spawn(sys, s);
    assert sys'.workers == sys.workers && sys'.logs == sys.logs && sys'.handled == sys.handled;
  }

  lemma ReportGoes(sys: Sys, r: nat, key: Key, remote: Resources) returns (sys1: Sys)
    requires Ending(sys, r, key) && sys.handled[r] < |sys.logs[r]| - 1
    ensures Goes(sys, Deliver(r), sys1, remote) && Ending(sys1, r, key)
    ensures sys1.logs == sys.logs && sys1.handled == sys.handled[r := sys.handled[r] + 1]
    ensures sys1.sched.taskIdToDedupe == sys.sched.taskIdToDedupe && sys1.sched.pausedSet == sys.sched.pausedSet
  {
    hide Top, Apply, Sched.Handle, Spawn;
    var e := sys.logs[r][sys.handled[r]];
    ReportStartsNothing(sys.sched, e);
    SpawnSame(sys.(handled := sys.handled[r := sys.handled[r] + 1]), sys.sched.Handle(e));
    sys1 := Do(sys, Deliver(r), remote);
  }

  /** Once everything of run `r` is delivered, the task that holds its key is over. */
  lemma {:induction false} DrainEndsTask(sys: Sys, r: nat, key: Key, last: WorkerEvent, id: TaskId, remote: Resources)
    returns (sys': Sys)
    requires r < |sys.logs| && r < |sys.handled| && 0 <= sys.handled[r] < |sys.logs[r]| && !last.Progress?
    requires sys.logs[r][|sys.logs[r]| - 1] == last
    requires Ending(sys, r, key) && Owns(sys.sched, id, key) && key !in sys.sched.pausedSet
    ensures GoesAll(sys, Deliveries(r, |sys.logs[r]| - sys.handled[r]), sys', remote)
    ensures id !in sys'.sched.taskIdToDedupe
    ensures var trace := TraceOf(sys'.sched.emitted, id);
            trace != [] && trace[|trace| - 1] == EndOf(last)
    decreases |sys.logs[r]| - sys.handled[r]
  {
    hide Top, Apply, TraceOf, Goes, Spawn, Shape, EndOf;
    ShapeLengths(sys);
    var n := |sys.logs[r]| - sys.handled[r];
    if n == 1 {
      EndingHas(sys, r, key);
      sys' := LastDelivery(sys, r, key, sys.logs[r][sys.handled[r]], id, remote);
      assert GoesAll(sys', [], sys', remote);
      GoesCons(sys, Deliver(r), sys', [], sys', remote);
      assert Deliveries(r, 0) == [];
    } else {
      var sys1 := ReportGoes(sys, r, key, remote);
      EndingHas(sys1, r, key);
      sys' := DrainEndsTask(sys1, r, key, last, id, remote);
      GoesCons(sys, Deliver(r), sys1, Deliveries(r, n - 1), sys', remote);
    }
  }

  lemma LastDelivery(sys: Sys, r: nat, key: Key, e: WorkerEvent, id: TaskId, remote: Resources) returns (sys': Sys)
    requires !e.Progress? && e.key == key
    requires Ending(sys, r, key) && Owns(sys.sched, id, key) && key !in sys.sched.pausedSet
    requires r < |sys.logs| && r < |sys.handled| && 0 <= sys.handled[r] < |sys.logs[r]|
    requires sys.logs[r][sys.handled[r]] == e
    ensures Goes(sys, Deliver(r), sys', remote) && id !in sys'.sched.taskIdToDedupe
    ensures TraceOf(sys'.sched.emitted, id) == TraceOf(sys.sched.emitted, id) + [EndOf(e)]
  {
    hide Top, Apply, TraceOf, Spawn, Shape, EndOf, Ending, Allowed;
    EndingHas(sys, r, key);
    LastEventEnds(sys.sched, e, id);
    SpawnSched(sys.(handled := sys.handled[r := sys.handled[r] + 1]), Apply(sys.sched, Event(e)));
    sys' := Do(sys, Deliver(r), remote);
  }

  lemma ShapeLengths(sys: Sys)
    requires Shape(sys)
    ensures |sys.workers| == |sys.logs| == |sys.handled|
  {}

  /** Run `r` is an orphan that has been told to stop; task `id` holds its key. */
  ghost predicate Overtaken(sys: Sys, r: nat, w: Worker, log: seq<WorkerEvent>, handled: nat, file: Option<seq<byte>>,
                            id: TaskId)
  {
    && Shape(sys) && Top(sys.sched) && !sys.sched.closed
    && r < |sys.workers| && sys.workers[r] == w && sys.logs[r] == log && sys.handled[r] == handled
    && r in sys.sched.cancelled && FileAt(sys.files, w.task.filePath) == file
    && Owns(sys.sched, id, w.key) && w.key !in sys.sched.pausedSet
  }

  lemma CancelAndEnqueue(sys: Sys, r: nat, id: TaskId, task: InnerTask, remote: Resources)
    returns (sys1: Sys, sys2: Sys)
    requires Shape(sys) && Top(sys.sched) && !sys.sched.closed && r < |sys.workers|
    requires Owns(sys.sched, id, sys.workers[r].key) && sys.workers[r].key in sys.sched.active
    requires sys.sched.active[sys.workers[r].key] == r
    requires task.DedupeKey() == sys.workers[r].key && Fresh(sys.sched, task.taskId)
    ensures Goes(sys, Command(Cancel(id)), sys1, remote) && Goes(sys1, Command(Enqueue(task)), sys2, remote)
    ensures Overtaken(sys2, r, sys.workers[r], sys.logs[r], sys.handled[r],
                      FileAt(sys.files, sys.workers[r].task.filePath), task.taskId)
  {
    hide Top, Apply, Und, InnerTask.DedupeKey, Fresh, Shape, Do;
    var key := sys.workers[r].key;
    ShapeLengths(sys);
    CancelStops(sys.sched, id, key);
    CancelFreesKey(sys.sched, id, key, task.taskId);
    CommandGoes(sys, Cancel(id), r, remote);
    sys1 := Do(sys, Command(Cancel(id)), remote);
    AdmissionOwns(sys1.sched, task);
    CommandGoes(sys1, Enqueue(task), r, remote);
    sys2 := Do(sys1, Command(Enqueue(task)), remote);
  }

  /** The last step of an orphan. */
  lemma OrphanEnds(sys: Sys, r: nat, w: Worker, log: seq<WorkerEvent>, handled: nat, file: Option<seq<byte>>,
                   id: TaskId,
                   i: Input, remote: Resources)
    returns (sys1: Sys)
    requires Overtaken(sys, r, w, log, handled, file, id) && LogOk(w, log) && handled <= |log| && !w.phase.Over?
    requires Fits(w, i) && Sees(i, true) && HonestInput(i, remote(w.task.url)) && Next(w, file, i).0.phase.Over?
    ensures Goes(sys, Work(r, i), sys1, remote) && Ending(sys1, r, w.key) && sys1.sched == sys.sched
    ensures |Next(w, file, i).2| == 1 && !Next(w, file, i).2[0].Progress?
    ensures sys1.logs[r] == log + Next(w, file, i).2 && sys1.handled[r] == handled
  {
    hide Top, Next, Fits, HonestInput, Und, Shape;
    LastStepSends(w, file, i);
    ShapeLengths(sys);
    WorkUnd(sys, r, i);
    sys1 := Do(sys, Work(r, i), remote);
    ShapeLengths(sys1);
    NotOverReports(w, log);
  }

  lemma NotOverReports(w: Worker, log: seq<WorkerEvent>)
    requires LogOk(w, log) && !w.phase.Over?
    ensures forall i :: 0 <= i < |log| ==> log[i].Progress? && log[i].key == w.key
  {}

  /**
   If a running task is cancelled and its key enqueued again at once, the old worker's last event, whichever it is
   (`Canceled` because it was stopped, or `Failed` or `Completed` because it came that far), ends the new task,
   which nobody cancelled and which may not have moved a byte. Every step of this run can happen; reports that were
   still on their way are delivered to the new task before.
   */
  lemma StaleEventEndsNewTask(sys: Sys, r: nat, id: TaskId, task: InnerTask, i: Input, remote: Resources)
    returns (sys': Sys)
    requires SysOk(sys, remote) && !sys.sched.closed && r < |sys.workers|
    requires Owns(sys.sched, id, sys.workers[r].key) && sys.workers[r].key in sys.sched.active
    requires sys.sched.active[sys.workers[r].key] == r
    requires task.DedupeKey() == sys.workers[r].key && Fresh(sys.sched, task.taskId)
    requires Fits(sys.workers[r], i) && Sees(i, true) && HonestInput(i, remote(sys.workers[r].task.url))
    requires Next(sys.workers[r], FileAt(sys.files, sys.workers[r].task.filePath), i).0.phase.Over?
    ensures sys.handled[r] <= |sys.logs[r]|
    ensures GoesAll(sys, [Command(Cancel(id)), Command(Enqueue(task)), Work(r, i)]
                         + Deliveries(r, |sys.logs[r]| - sys.handled[r] + 1), sys', remote)
    ensures task.taskId !in sys'.sched.taskIdToDedupe
    ensures var ev := Next(sys.workers[r], FileAt(sys.files, sys.workers[r].task.filePath), i).2;
            var trace := TraceOf(sys'.sched.emitted, task.taskId);
            |ev| == 1 && !ev[0].Progress? && trace != [] && trace[|trace| - 1] == EndOf(ev[0])
  {
    hide SysOk, Top, Next, Fits, HonestInput, TraceOf, Goes, GoesAll, InnerTask.DedupeKey, Fresh, LogOk, Ending, Sees;
    OkIsTop(sys, remote);
    var w, log, file := sys.workers[r], sys.logs[r], FileAt(sys.files, sys.workers[r].task.filePath);
    RunIsOpen(sys, r, i, remote);
    var sys1, sys2 := CancelAndEnqueue(sys, r, id, task, remote);
    var sys3 := OrphanEnds(sys2, r, w, log, sys.handled[r], file, task.taskId, i, remote);
    EndingHas(sys3, r, w.key);
    sys' := DrainEndsTask(sys3, r, w.key, sys3.logs[r][|sys3.logs[r]| - 1], task.taskId, remote);
    var rest := Deliveries(r, |log| - sys.handled[r] + 1);
    GoesCons(sys2, Work(r, i), sys3, rest, sys', remote);
    GoesCons(sys1, Command(Enqueue(task)), sys2, [Work(r, i)] + rest, sys', remote);
    GoesCons(sys, Command(Cancel(id)), sys1, [Command(Enqueue(task))] + ([Work(r, i)] + rest), sys', remote);
    assert [Command(Cancel(id))] + ([Command(Enqueue(task))] + ([Work(r, i)] + rest))
           == [Command(Cancel(id)), Command(Enqueue(task)), Work(r, i)] + rest;
  }

  lemma EndingHas(sys: Sys, r: nat, key: Key)
    requires Ending(sys, r, key)
    ensures Shape(sys) && Top(sys.sched) && !sys.sched.closed && |sys.workers| == |sys.logs| == |sys.handled|
    ensures r < |sys.workers| && sys.handled[r] < |sys.logs[r]|
    ensures var last := sys.logs[r][|sys.logs[r]| - 1]; last.key == key && !last.Progress?
  {
    hide Top;
  }

  lemma RunIsOpen(sys: Sys, r: nat, i: Input, remote: Resources)
    requires SysOk(sys, remote) && r < |sys.workers| && Fits(sys.workers[r], i)
    ensures Shape(sys) && sys.handled[r] <= |sys.logs[r]| && LogOk(sys.workers[r], sys.logs[r])
    ensures !sys.workers[r].phase.Over?
  {
    hide Top, Ordered, GroupsReady, LogOk, WorkerOk, CopiedOk;
    assert RunOk(sys.workers[r], sys.logs[r], sys.handled[r], r in sys.sched.cancelled,
                 FileAt(sys.files, sys.workers[r].task.filePath), remote(sys.workers[r].task.url));
  }
}
