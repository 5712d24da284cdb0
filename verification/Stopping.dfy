/** How fast a worker obeys: what it still does once its token is cancelled. */
module Stopping {
  import opened Basics
  import opened Invariants
  import opened Runs
  import opened Protocol
  import opened HttpClient
  import opened Worker
  import opened WorkerSafety
  import opened WorkerTermination
  import opened System
  import opened Offsets

  /** How many steps a stopped worker can still take. */
  function StepsToStop(p: Phase): nat {
    match p
    case Preparing(_) => 2
    case Looping(_, _) => 1
    case Trying(_, _, _) => 1
    case Sending(_, _, _) => 3
    case Waiting(_, _, _) => 2
    case Got(_, _) => 2
    case Finishing(_) => 1
    case Over => 0
  }

  /** The transfer call that is under way. */
  function InFlight(p: Phase): nat {
    if p.Sending? then 1 else 0
  }

  lemma StoppedStep(w: Worker, file: Option<seq<byte>>, i: Input)
    requires Fits(w, i) && Sees(i, true)
    ensures var (w', _, _) := Next(w, file, i);
            && StepsToStop(w'.phase) < StepsToStop(w.phase)
            && InFlight(w'.phase) + CallOf(i) <= InFlight(w.phase)
  {
    hide Prepare, TransferChunk, Slices;
  }

  // ---- how it ends ----

  /** What becomes of a stopped worker; undecided while it waits for an answer. */
  datatype Fate = Undecided | Cancels | Completes

  function FateOf(p: Phase): Fate {
    match p
    case Preparing(_) => Undecided
    case Sending(_, _, _) => Undecided
    case Got(outcome, _) => if outcome.done then Completes else Cancels
    case Finishing(_) => Completes
    case Over => Undecided
    case _ => Cancels
  }

  /** The worker is on the way to its fate, or has told of it. */
  predicate Meets(w: Worker, log: seq<WorkerEvent>, fate: Fate) {
    if w.phase.Over? then
      && log != []
      && match fate
         case Cancels => log[|log| - 1].Canceled?
         case Completes => log[|log| - 1].Completed?
         case Undecided => true
    else FateOf(w.phase) == fate
  }

  lemma StepMeets(w: Worker, file: Option<seq<byte>>, i: Input, log: seq<WorkerEvent>, fate: Fate)
    requires Fits(w, i) && Sees(i, true) && !i.Panicked? && fate != Undecided && Meets(w, log, fate)
    ensures var (w', _, ev) := Next(w, file, i); Meets(w', log + ev, fate)
  {
    hide Prepare, TransferChunk, Slices;
  }

  /**
   The answer to the chunk in flight decides: it was the last one, or it failed for good, or the worker will
   cancel.
   */
  lemma AnswerDecides(w: Worker, file: Option<seq<byte>>, env: ChunkEnv)
    requires w.phase.Sending?
    ensures var (w', _, ev) := Next(w, file, Attempted(env));
            match TransferChunk(w.task, TaskIo(file, w.open), w.phase.offset, w.phase.total, env).1
            case Ok(outcome) => FateOf(w'.phase) == (if outcome.done then Completes else Cancels) && ev == []
            case Err(e) =>
              if IsRetryable(e) && w.phase.attempt < w.task.maxChunkRetries then FateOf(w'.phase) == Cancels && ev == []
              else w'.phase.Over? && ev == [WorkerEvent.Failed(w.key, e)]
  {
    hide TransferChunk, Slices;
  }

  // ---- in the system ----

  predicate IsOwnWork(step: Step, r: nat) {
    step.Work? && step.r == r
  }

  function OwnWorks(steps: seq<Step>, r: nat): nat {
    if steps == [] then 0 else (if IsOwnWork(steps[0], r) then 1 else 0) + OwnWorks(steps[1..], r)
  }

  function OwnCalls(steps: seq<Step>, r: nat): nat {
    if steps == [] then 0
    else (if IsOwnWork(steps[0], r) then CallOf(steps[0].i) else 0) + OwnCalls(steps[1..], r)
  }

  predicate Panics(steps: seq<Step>, r: nat) {
    steps != [] && ((IsOwnWork(steps[0], r) && steps[0].i.Panicked?) || Panics(steps[1..], r))
  }

  /** A step of anybody else: the worker is as it was, and still stopped. */
  lemma OthersLeaveIt(sys: Sys, step: Step, r: nat, remote: Resources)
    requires SysOk(sys, remote) && CanDo(sys, step, remote) && r < |sys.workers| && !IsOwnWork(step, r)
    ensures var sys' := Do(sys, step, remote);
            && Shape(sys') && r < |sys'.workers| && sys'.workers[r] == sys.workers[r] && sys'.logs[r] == sys.logs[r]
            && sys.sched.cancelled <= sys'.sched.cancelled
  {
    hide Top, Ordered, RunsOk, GroupsReady, Apply, Considerate, Undrained, Next, Fits, HonestInput;
    OkIsTop(sys, remote);
    match step
    case Command(a) =>
      ApplyGrows(sys.sched, a);
      SpawnShape(sys, Apply(sys.sched, a));
      SpawnKeepsRuns(sys, Apply(sys.sched, a), r);
      SpawnSched(sys, Apply(sys.sched, a));
    case Deliver(r') =>
      var sys1 := sys.(handled := sys.handled[r' := sys.handled[r'] + 1]);
      var a := Event(sys.logs[r'][sys.handled[r']]);
      ApplyGrows(sys.sched, a);
      SpawnShape(sys1, Apply(sys.sched, a));
      SpawnKeepsRuns(sys1, Apply(sys.sched, a), r);
      SpawnSched(sys1, Apply(sys.sched, a));
    case Work(r', i) =>
      HandledAtMost(sys, r', remote);
      WorkUnd(sys, r', i);
  }

  lemma OwnWorkIs(sys: Sys, r: nat, i: Input, remote: Resources)
    requires SysOk(sys, remote) && CanDo(sys, Work(r, i), remote)
    ensures Shape(sys) && r < |sys.workers| && Fits(sys.workers[r], i) && Sees(i, r in sys.sched.cancelled)
    ensures var (w', _, ev) := Next(sys.workers[r], FileAt(sys.files, sys.workers[r].task.filePath), i);
            var sys' := Do(sys, Work(r, i), remote);
            && Shape(sys') && r < |sys'.workers| && sys'.workers[r] == w' && sys'.logs[r] == sys.logs[r] + ev
            && sys'.sched == sys.sched
  {
    hide Top, Ordered, RunsOk, GroupsReady, Undrained, Next, Fits, HonestInput, Sees;
    OkIsTop(sys, remote);
    HandledAtMost(sys, r, remote);
    WorkUnd(sys, r, i);
  }

  /**
   Once its token is cancelled, a worker takes at most three more steps of its own, however the rest of the system goes
   on. It begins no transfer call: at most the one in flight is answered. If it does not panic it ends with `Canceled`,
   unless its last chunk had been moved; where an answer is still out, `AnswerDecides` says which.
   */
  lemma {:induction false} StoppedWorkerEnds(sys: Sys, steps: seq<Step>, sys': Sys, r: nat, fate: Fate,
                                             remote: Resources)
    requires SysOk(sys, remote) && Leads(sys, steps, sys', remote) && r < |sys.workers| && r in sys.sched.cancelled
    ensures Shape(sys) && Shape(sys') && r < |sys'.workers| && r in sys'.sched.cancelled
    ensures OwnWorks(steps, r) + StepsToStop(sys'.workers[r].phase) <= StepsToStop(sys.workers[r].phase) <= 3
    ensures OwnCalls(steps, r) + InFlight(sys'.workers[r].phase) <= InFlight(sys.workers[r].phase)
    ensures !Panics(steps, r) && fate != Undecided && Meets(sys.workers[r], sys.logs[r], fate) ==>
              Meets(sys'.workers[r], sys'.logs[r], fate)
    decreases |steps|
  {
    hide SysOk, Do, Possible, Considerate, Next, Fits, Sees, Meets;
    OkIsTop(sys, remote);
    if steps != [] {
      var step := steps[0];
      var sys1 := Do(sys, step, remote);
      StepKeepsSysOk(sys, step, remote);
      if IsOwnWork(step, r) {
        var file := FileAt(sys.files, sys.workers[r].task.filePath);
        OwnWorkIs(sys, r, step.i, remote);
        StoppedStep(sys.workers[r], file, step.i);
        if !step.i.Panicked? && fate != Undecided && Meets(sys.workers[r], sys.logs[r], fate) {
          StepMeets(sys.workers[r], file, step.i, sys.logs[r], fate);
        }
      } else {
        OthersLeaveIt(sys, step, r, remote);
      }
      StoppedWorkerEnds(sys1, steps[1..], sys', r, fate, remote);
    }
  }
}
