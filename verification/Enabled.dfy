/**
 No worker gets stuck: it can always go on, and however the rest of the system goes on it needs a bounded
 number of steps.
 */
module Enabled {
  import opened Basics
  import opened Invariants
  import opened Runs
  import opened HttpClient
  import opened Worker
  import opened WorkerSafety
  import opened WorkerTermination
  import opened Protocol
  import opened System
  import opened Offsets

  /** A step of run `r`: of its worker, or of the channel on its behalf. */
  predicate IsOwn(step: Step, r: nat) {
    match step
    case Command(_) => false
    case Deliver(r') => r' == r
    case Work(r', _) => r' == r
  }

  /** Something that a worker can observe next even if no server answers any more. */
  function Silence(w: Worker, stopped: bool): Input
    requires !w.phase.Over?
  {
    match w.phase
    case Preparing(_) => Prepared(PrepareEnv(NoFault, NoHead, NoAnswer))
    case Looping(_, _) => Polled(stopped)
    case Trying(_, _, _) => Polled(stopped)
    case Sending(_, _, _) => Attempted(ChunkEnv(NoFault, NoResponse, NoAnswer))
    case Waiting(_, _, _) => Woke
    case Got(_, _) => Reported
    case Finishing(_) => Finished
  }

  lemma SilenceFits(w: Worker, stopped: bool, resource: seq<byte>)
    requires !w.phase.Over?
    ensures var i := Silence(w, stopped);
            Fits(w, i) && Sees(i, stopped) && HonestInput(i, resource) && !i.Panicked?
  {}

  /**
   In every reachable open state the run behind every `active` entry has a step that can happen, without a panic and
   without help from any server or command.
   */
  lemma ActiveRunsGoOn(sys: Sys, k: Key, remote: Resources)
    requires Reachable(sys, remote) && !sys.sched.closed && k in sys.sched.active
    ensures Shape(sys)
    ensures exists step ::
              IsOwn(step, sys.sched.active[k]) && CanDo(sys, step, remote) && !(step.Work? && step.i.Panicked?)
  {
    hide Reachable, Top, Ordered, RunsOk, GroupsReady, Fits, Sees, HonestInput;
    ReachableIsOk(sys, remote);
    ActiveIsOwn(sys, k, remote);
    var r := sys.sched.active[k];
    if sys.handled[r] < |sys.logs[r]| {
      assert IsOwn(Deliver(r), r) && CanDo(sys, Deliver(r), remote);
    } else {
      var i := Silence(sys.workers[r], r in sys.sched.cancelled);
      SilenceFits(sys.workers[r], r in sys.sched.cancelled, remote(sys.workers[r].task.url));
      assert IsOwn(Work(r, i), r) && CanDo(sys, Work(r, i), remote);
    }
  }

  /** How many steps run `r` can still take: each of its worker's steps sends at most one event. */
  function Remaining(sys: Sys, r: nat, remote: Resources): int
    requires r < |sys.workers| == |sys.logs| == |sys.handled|
  {
    var w := sys.workers[r];
    2 * StepsLeft(w, FileAt(sys.files, w.task.filePath), remote(w.task.url)) + |sys.logs[r]| - sys.handled[r]
  }

  lemma RemainingNonNegative(sys: Sys, r: nat, remote: Resources)
    requires SysOk(sys, remote) && r < |sys.workers|
    ensures Shape(sys) && 0 <= Remaining(sys, r, remote)
  {
    hide Top, Ordered, RunsOk, GroupsReady, CallsLeft, WorkerOk, Undrained;
    HandledAtMost(sys, r, remote);
    var w := sys.workers[r];
    if r in Und(sys) {
      CallsLeftNonNegative(w, FileAt(sys.files, w.task.filePath), remote(w.task.url));
    } else {
      NothingLeft(w, FileAt(sys.files, w.task.filePath), remote(w.task.url));
    }
  }

  lemma NothingLeft(w: Worker, file: Option<seq<byte>>, resource: seq<byte>)
    requires w.phase.Over?
    ensures StepsLeft(w, file, resource) == 0
  {}

  /** What an upload can still do does not depend on any file, and what is over does nothing. */
  lemma FileDoesNotMatter(w: Worker, file: Option<seq<byte>>, file': Option<seq<byte>>, resource: seq<byte>)
    requires w.task.direction == Upload || w.phase.Over?
    ensures StepsLeft(w, file, resource) == StepsLeft(w, file', resource)
  {}

  lemma OwnWork(sys: Sys, r: nat, i: Input, remote: Resources)
    requires SysOk(sys, remote) && CanDo(sys, Work(r, i), remote)
    ensures var sys' := Do(sys, Work(r, i), remote);
            Shape(sys') && r < |sys'.workers| && Remaining(sys', r, remote) < Remaining(sys, r, remote)
  {
    hide Top, Ordered, RunsOk, GroupsReady, StepsLeft, Next, Fits, HonestInput, WorkerOk;
    HandledAtMost(sys, r, remote);
    WorkUnd(sys, r, i);
    var w, file := sys.workers[r], FileAt(sys.files, sys.workers[r].task.filePath);
    StepDecreases(w, file, i, remote(w.task.url));
    WorkFiles(sys, r, i, w.task.filePath);
    WhoWrites(w, file, i);
    SendsAtMostOne(w, file, i);
  }

  lemma SendsAtMostOne(w: Worker, file: Option<seq<byte>>, i: Input)
    requires Fits(w, i)
    ensures |Next(w, file, i).2| <= 1
  {
    hide Prepare, TransferChunk, Slices;
  }

  lemma OthersWork(sys: Sys, r: nat, r': nat, i: Input, remote: Resources)
    requires SysOk(sys, remote) && CanDo(sys, Work(r', i), remote) && r < |sys.workers| && r != r'
    ensures var sys' := Do(sys, Work(r', i), remote);
            Shape(sys') && r < |sys'.workers| && Remaining(sys', r, remote) == Remaining(sys, r, remote)
  {
    hide Top, Ordered, RunsOk, GroupsReady, StepsLeft, Next, Fits, HonestInput, WorkerOk, Undrained;
    HandledAtMost(sys, r', remote);
    HandledAtMost(sys, r, remote);
    WorkUnd(sys, r', i);
    var w := sys.workers[r];
    var sys' := Do(sys, Work(r', i), remote);
    var file, file' := FileAt(sys.files, w.task.filePath), FileAt(sys'.files, w.task.filePath);
    WorkFiles(sys, r', i, w.task.filePath);
    if file' != file {
      if IsDownload(w.task) && r in Und(sys) {
        RunsApart(sys, r, r');
      }
      FileDoesNotMatter(w, file, file', remote(w.task.url));
    }
  }

  lemma SchedulerStep(sys: Sys, step: Step, r: nat, remote: Resources)
    requires SysOk(sys, remote) && CanDo(sys, step, remote) && !step.Work? && r < |sys.workers|
    ensures var sys' := Do(sys, step, remote);
            && Shape(sys') && r < |sys'.workers|
            && Remaining(sys', r, remote) == Remaining(sys, r, remote) - if IsOwn(step, r) then 1 else 0
  {
    hide Top, Ordered, RunsOk, GroupsReady, StepsLeft, Apply, Considerate, Undrained;
    OkIsTop(sys, remote);
    if step.Command? {
      ApplyGrows(sys.sched, step.a);
      SpawnShape(sys, Apply(sys.sched, step.a));
      SpawnKeepsRuns(sys, Apply(sys.sched, step.a), r);
      SpawnSched(sys, Apply(sys.sched, step.a));
    } else {
      var sys1 := sys.(handled := sys.handled[step.r := sys.handled[step.r] + 1]);
      var a := Event(sys.logs[step.r][sys.handled[step.r]]);
      ApplyGrows(sys.sched, a);
      SpawnShape(sys1, Apply(sys.sched, a));
      SpawnKeepsRuns(sys1, Apply(sys.sched, a), r);
      SpawnSched(sys1, Apply(sys.sched, a));
    }
  }

  /** A run's own steps use up what it can still do; nobody else's step changes it. */
  lemma StepUsesUp(sys: Sys, step: Step, r: nat, remote: Resources)
    requires SysOk(sys, remote) && CanDo(sys, step, remote) && r < |sys.workers|
    ensures var sys' := Do(sys, step, remote);
            && Shape(sys') && r < |sys'.workers|
            && Remaining(sys', r, remote) + (if IsOwn(step, r) then 1 else 0) <= Remaining(sys, r, remote)
  {
    hide SysOk, Remaining, Do, Possible, Considerate;
    match step
    case Work(r', i) =>
      if r' == r {
        OwnWork(sys, r, i, remote);
      } else {
        OthersWork(sys, r, r', i, remote);
      }
    case _ => SchedulerStep(sys, step, r, remote);
  }

  function OwnSteps(steps: seq<Step>, r: nat): nat {
    if steps == [] then 0 else (if IsOwn(steps[0], r) then 1 else 0) + OwnSteps(steps[1..], r)
  }

  /** Over any run of the system, however long, a worker and its events take at most `Remaining` steps. */
  lemma {:induction false} RunsAreBounded(sys: Sys, steps: seq<Step>, sys': Sys, r: nat, remote: Resources)
    requires SysOk(sys, remote) && Leads(sys, steps, sys', remote) && r < |sys.workers|
    ensures Shape(sys) && Shape(sys') && r < |sys'.workers|
    ensures 0 <= Remaining(sys', r, remote) <= Remaining(sys, r, remote) - OwnSteps(steps, r)
    decreases |steps|
  {
    hide SysOk, Remaining, Do, Possible, Considerate;
    OkIsTop(sys, remote);
    RemainingNonNegative(sys, r, remote);
    if steps != [] {
      StepKeepsSysOk(sys, steps[0], remote);
      StepUsesUp(sys, steps[0], r, remote);
      RunsAreBounded(Do(sys, steps[0], remote), steps[1..], sys', r, remote);
    }
  }
}
