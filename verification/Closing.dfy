/** What a close means for the workers: each of them has been told to stop, and none follows. */
module Closing {
  import opened Basics
  import opened Sequences
  import opened SchedulerState
  import opened Invariants
  import opened Runs
  import opened StatusTrace
  import opened Protocol
  import opened System
  import opened Offsets
  import opened Orphans
  import opened Stopping

  /** Run `r` is the one the `active` entry of its key stands for. */
  predicate Stands(active: map<Key, Token>, key: Key, r: Token) {
    key in active && active[key] == r
  }

  predicate ActiveOrStopped(active: map<Key, Token>, cancelled: set<Token>, key: Key, r: Token) {
    Stands(active, key, r) || r in cancelled
  }

  ghost predicate NewOnesStand(active: map<Key, Token>, spawned: seq<Run>, from: nat) {
    forall r :: from <= r < |spawned| ==> Stands(active, spawned[r].key, r)
  }

  ghost predicate NoneRunsOn(s: Sched, und: set<Token>) {
    forall r :: r in und ==> r < |s.spawned| && ActiveOrStopped(s.active, s.cancelled, s.spawned[r].key, r)
  }

  // ---- messages ----

  lemma CloseStopsAll(s: Sched, order: seq<Key>)
    ensures s.active.Values <= s.Close(order).cancelled
  {
    EmitPausedOnlyEmits(s.(cancelled := s.cancelled + s.active.Values), order);
  }

  lemma CommandStops(s: Sched, und: set<Token>, a: Action)
    requires Core(s) && NoneRunsOn(s, und) && !a.Event?
    ensures NoneRunsOn(Body(s, a), und)
  {
    hide Core, CountIn;
    hide Sched.PauseGroup, Sched.ResumeGroup, Sched.CancelGroup, Sched.Close, Sched.Admit;
    match a
    case Enqueue(task) => AdmitFields(s, task);
    case Pause(id) =>
      if id in s.taskIdToDedupe {
        PauseFields(s, s.taskIdToDedupe[id]);
      }
    case Resume(id) =>
      if id in s.taskIdToDedupe {
        ResumeFields(s, s.taskIdToDedupe[id]);
      }
    case Cancel(id) =>
      if id in s.taskIdToDedupe {
        CancelFields(s, s.taskIdToDedupe[id]);
        if s.taskIdToDedupe[id] in s.active {
          CancelGroupStops(s, s.taskIdToDedupe[id]);
        }
      }
    case Close(order) =>
      CloseFields(s, order);
      CloseStopsAll(s, order);
  }

  lemma EventStops(s: Sched, und: set<Token>, r: Token, e: WorkerEvent)
    requires Core(s) && Ordered(s, und) && NoneRunsOn(s, und) && r in und && e.key == s.spawned[r].key
    ensures NoneRunsOn(Body(s, Event(e)), if e.Progress? then und else und - {r})
  {
    hide Core, CountIn, SeparateFiles, RunKeys, OwnsOrOrphan, Sched.Handle;
    HandleFields(s, e);
  }

  /** The start loop takes no token away, and every worker it starts is active. */
  lemma {:induction false} PassOnlyStarts(s: Sched, keys: seq<Key>)
    ensures var s' := s.ExamineAll(keys);
            && (forall k :: k in s.active ==> k in s'.active && s'.active[k] == s.active[k])
            && NewOnesStand(s'.active, s'.spawned, |s.spawned|)
    decreases |keys|
  {
    hide CountIn;
    if keys != [] {
      PassStartsLeaders(s.Examine(keys[0]), keys[1..]);
      PassOnlyStarts(s.Examine(keys[0]), keys[1..]);
    }
  }

  lemma TryStartStops(s: Sched, und: set<Token>)
    requires NoneRunsOn(s, und)
    ensures NoneRunsOn(s.TryStart(), und + FreshRuns(|s.spawned|, |s.TryStart().spawned|))
  {
    hide Sched.ExamineAll;
    PassOnlyStarts(s.(queued := [], queuedSet := {}), s.queued);
    TryStartStartsLeaders(s);
    var s' := s.TryStart();
    forall r | r in und + FreshRuns(|s.spawned|, |s'.spawned|)
      ensures r < |s'.spawned| && ActiveOrStopped(s'.active, s'.cancelled, s'.spawned[r].key, r)
    {
      if r in und {
        assert s'.spawned[r] == s.spawned[r];
        assert ActiveOrStopped(s.active, s.cancelled, s.spawned[r].key, r);
      } else {
        assert IsFresh(|s.spawned|, r, |s'.spawned|);
        assert Stands(s'.active, s'.spawned[r].key, r);
      }
    }
  }

  // ---- the system ----

  lemma StepStops(sys: Sys, step: Step, remote: Resources)
    requires SysOk(sys, remote) && CanDo(sys, step, remote) && NoneRunsOn(sys.sched, Und(sys))
    ensures var sys' := Do(sys, step, remote); Shape(sys') && NoneRunsOn(sys'.sched, Und(sys'))
  {
    hide Core, Top, Ordered, RunsOk, GroupsReady, Und, NoneRunsOn, Spawn, Considerate, AfterWork, NoDup, Elems, Fresh;
    OkIsTop(sys, remote);
    TopIsCore(sys.sched);
    match step
    case Command(a) =>
      if sys.sched.closed {
        SpawnNothing(sys);
      } else {
        CommandStops(sys.sched, Und(sys), a);
        ApplyIsBodyThenStart(sys.sched, a);
        MessageStops(sys, Und(sys), Body(sys.sched, a), a);
      }
    case Deliver(r) =>
      var e := sys.logs[r][sys.handled[r]];
      DeliverUnd(sys, r, remote);
      EventHasRunKey(sys, r, remote);
      EventStops(sys.sched, Und(sys), r, e);
      ApplyIsBodyThenStart(sys.sched, Event(e));
      MessageStops(sys.(handled := sys.handled[r := sys.handled[r] + 1]),
                   if e.Progress? then Und(sys) else Und(sys) - {r},
                   Body(sys.sched, Event(e)), Event(e));
    case Work(r, i) =>
      HandledAtMost(sys, r, remote);
      WorkUnd(sys, r, i);
      WorkSched(sys, r, i);
  }

  lemma MessageStops(sys: Sys, und: set<Token>, b: Sched, a: Action)
    requires Shape(sys) && Core(sys.sched) && b == Body(sys.sched, a) && und == Und(sys) && NoneRunsOn(b, und)
    ensures var sys' := Spawn(sys, b.TryStart()); Shape(sys') && NoneRunsOn(sys'.sched, Und(sys'))
  {
    hide Core, Und, NoneRunsOn, Spawn, Body, StartedFromGroups;
    BodySpawns(sys.sched, a);
    TryStartStartsLeaders(b);
    TryStartStops(b, und);
    SpawnShape(sys, b.TryStart());
    SpawnSched(sys, b.TryStart());
  }

  lemma {:induction false} LeadsStops(sys: Sys, steps: seq<Step>, sys': Sys, remote: Resources)
    requires SysOk(sys, remote) && NoneRunsOn(sys.sched, Und(sys)) && Leads(sys, steps, sys', remote)
    ensures Shape(sys') && NoneRunsOn(sys'.sched, Und(sys'))
    decreases |steps|
  {
    hide SysOk, Do, Possible, Considerate, NoneRunsOn, Und;
    OkIsTop(sys, remote);
    if steps != [] {
      StepKeepsSysOk(sys, steps[0], remote);
      StepStops(sys, steps[0], remote);
      LeadsStops(Do(sys, steps[0], remote), steps[1..], sys', remote);
    }
  }

  /** In every reachable state a worker that is not drained is an active one or has been told to stop. */
  lemma ActiveOrToldToStop(sys: Sys, remote: Resources)
    requires Reachable(sys, remote)
    ensures Shape(sys)
    ensures forall r :: r in Und(sys) ==>
              Stands(sys.sched.active, sys.workers[r].key, r) || r in sys.sched.cancelled
  {
    hide Leads, SysOk;
    var maxUpload, maxDownload, files, steps :| Leads(Init(maxUpload, maxDownload, files), steps, sys, remote);
    InitIsOk(maxUpload, maxDownload, files, remote);
    LeadsStops(Init(maxUpload, maxDownload, files), steps, sys, remote);
  }

  // ---- after the close ----

  lemma {:induction false} ClosedStays(sys: Sys, steps: seq<Step>, sys': Sys, remote: Resources)
    requires SysOk(sys, remote) && sys.sched.closed && Leads(sys, steps, sys', remote)
    ensures SysOk(sys', remote) && sys'.sched == sys.sched
    decreases |steps|
  {
    hide SysOk, Do, Possible, Considerate;
    OkIsTop(sys, remote);
    if steps != [] {
      ClosedStep(sys, steps[0], remote);
      StepKeepsSysOk(sys, steps[0], remote);
      ClosedStays(Do(sys, steps[0], remote), steps[1..], sys', remote);
    }
  }

  lemma ClosedStep(sys: Sys, step: Step, remote: Resources)
    requires SysOk(sys, remote) && sys.sched.closed && Shape(sys) && CanDo(sys, step, remote)
    ensures Do(sys, step, remote).sched == sys.sched
  {
    hide Top, Ordered, RunsOk, GroupsReady, Considerate, Allowed, AfterWork, Spawn;
    match step
    case Command(a) => SpawnSched(sys, sys.sched);
    case Deliver(_) =>
    case Work(r, i) => WorkSched(sys, r, i);
  }

  /**
   Whenever the scheduler is closed, it starts no worker and tells no callback anything from then on, and every worker
   that is not drained takes at most three more steps and begins no transfer call.
   */
  lemma CloseEndsEverything(sys: Sys, order: seq<Key>, steps: seq<Step>, sys': Sys, remote: Resources)
    requires Reachable(sys, remote) && Shape(sys) && !sys.sched.closed
    requires CanDo(sys, Command(Close(order)), remote)
    requires Leads(Do(sys, Command(Close(order)), remote), steps, sys', remote)
    ensures sys'.sched == Do(sys, Command(Close(order)), remote).sched && sys'.sched.closed
    ensures Shape(sys') && sys'.sched.spawned == sys.sched.spawned
    ensures forall r :: r in Und(sys) ==>
              && r in sys'.sched.cancelled && OwnWorks(steps, r) <= 3
              && OwnCalls(steps, r) <= InFlight(sys.workers[r].phase)
  {
    hide SysOk, Reachable, Leads, Possible, Considerate, Und, NoneRunsOn, StepsToStop, OwnWorks, OwnCalls, Sched.Close;
    var a := Close(order);
    var sys1 := Do(sys, Command(a), remote);
    ReachableIsOk(sys, remote);
    ActiveOrToldToStop(sys, remote);
    CloseStopsAll(sys.sched, order);
    CloseFields(sys.sched, order);
    BodyCloses(sys.sched, a);
    StepKeepsSysOk(sys, Command(a), remote);
    SpawnSched(sys, sys.sched.Close(order));
    ClosedStays(sys1, steps, sys', remote);
    OkIsTop(sys', remote);
    forall r | r in Und(sys)
      ensures r in sys'.sched.cancelled && OwnWorks(steps, r) <= 3
      ensures OwnCalls(steps, r) <= InFlight(sys.workers[r].phase)
    {
      UndIsWorker(sys, r);
      SpawnKeepsRuns(sys, sys.sched.Close(order), r);
      StoppedWorkerEnds(sys1, steps, sys', r, Undecided, remote);
    }
  }

  lemma UndIsWorker(sys: Sys, r: nat)
    requires Shape(sys) && r in Und(sys)
    ensures r < |sys.workers|
  {}
}
