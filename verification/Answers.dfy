/** Which commands are accepted: what every command answers, and what its task's callback hears first. */
module Answers {
  import opened Basics
  import opened SchedulerState
  import opened Invariants
  import opened Runs
  import opened StatusTrace

  /** Group `k` belongs to the task with this id. */
  predicate LedBy(s: Sched, k: Key, id: TaskId) {
    k in s.groups && s.groups[k].leader.taskId == id
  }

  ghost predicate IsLive(s: Sched, id: TaskId) {
    exists k :: LedBy(s, k, id)
  }

  /** The live group `k` already does what `task` asks for. */
  predicate Does(s: Sched, k: Key, task: InnerTask) {
    k in s.groups && SameWork(s.groups[k].leader, task)
  }

  ghost predicate Taken(s: Sched, task: InnerTask) {
    exists k :: Does(s, k, task)
  }

  lemma WhoDoes(s: Sched, k: Key, task: InnerTask)
    requires Core(s)
    ensures Does(s, k, task) <==> k == task.DedupeKey() && k in s.groups
  {
    hide QueueMirror, Phases, Tokens, Bounded;
    if k in s.groups {
      SameKeyIsSameWork(s.groups[k].leader, task);
    }
  }

  lemma WhoLeads(s: Sched, k: Key, id: TaskId)
    requires Core(s)
    ensures LedBy(s, k, id) <==> id in s.taskIdToDedupe && s.taskIdToDedupe[id] == k
  {
    hide QueueMirror, Phases, Tokens, Bounded;
  }

  // ---- enqueue ----

  /** Nothing changes but that the caller hears of the group that does its work already. */
  ghost predicate Rejected(s: Sched, s': Sched, task: InnerTask) {
    exists k :: Does(s, k, task) &&
      var leader := s.groups[k].leader;
      var record := Emission(task.taskId, leader.taskId, Status.Failed(DuplicateTaskError), 0, leader.totalSize);
      s' == s.(emitted := s.emitted + [record])
  }

  /** There is one group more, that of `task`, which is told first that it is pending. */
  ghost predicate Accepted(s: Sched, s': Sched, task: InnerTask) {
    exists k :: k !in s.groups && k.dir == task.direction && Joins(s, s', task, k)
  }

  predicate Joins(s: Sched, s': Sched, task: InnerTask, k: Key) {
    && s'.groups == s.groups[k := GroupState(task, task)]
    && s'.taskIdToDedupe == s.taskIdToDedupe[task.taskId := k]
    && s.emitted + [Emission(task.taskId, task.taskId, Pending, s.Offset(k), task.totalSize)] <= s'.emitted
  }

  lemma {:induction false} PassOnlyAppends(s: Sched, keys: seq<Key>)
    ensures var s' := s.ExamineAll(keys);
            s'.groups == s.groups && s'.taskIdToDedupe == s.taskIdToDedupe && s.emitted <= s'.emitted
    decreases |keys|
  {
    hide CountIn;
    if keys != [] {
      PassOnlyAppends(s.Examine(keys[0]), keys[1..]);
    }
  }

  lemma AdmitJoins(s: Sched, task: InnerTask)
    ensures Joins(s, s.Admit(task), task, task.DedupeKey())
  {
    hide CountIn, InnerTask.DedupeKey, Sched.Offset;
  }

  /** An enqueue is rejected iff a live task does the same work. */
  lemma EnqueueDecides(s: Sched, task: InnerTask)
    requires Core(s)
    ensures if Taken(s, task) then Rejected(s, s.Enqueue(task), task) else Accepted(s, s.Enqueue(task), task)
  {
    hide Core, InnerTask.DedupeKey, CountIn, Sched.Admit, Sched.ExamineAll;
    var key := task.DedupeKey();
    WhoDoes(s, key, task);
    if key in s.groups {
      assert Does(s, key, task);
    } else {
      forall k ensures !Does(s, k, task) {
        WhoDoes(s, k, task);
      }
      var admitted := s.Admit(task);
      AdmitJoins(s, task);
      PassOnlyAppends(admitted.(queued := [], queuedSet := {}), admitted.queued);
      assert Joins(s, s.Enqueue(task), task, key);
    }
  }

  // ---- pause, resume, cancel ----

  ghost function AnswerIfLive(s: Sched, id: TaskId): Result<()> {
    if IsLive(s, id) then Ok(()) else Err(TaskNotFound)
  }

  /** Resumable: paused, and its old worker has stopped. */
  predicate Parked(s: Sched, k: Key, id: TaskId) {
    LedBy(s, k, id) && k in s.pausedSet && k !in s.active
  }

  ghost function ResumeAnswer(s: Sched, id: TaskId): Result<()> {
    if !IsLive(s, id) then Err(TaskNotFound)
    else if exists k :: Parked(s, k, id) then Ok(())
    else Err(InvalidTaskState)
  }

  lemma AnswersAre(s: Sched, id: TaskId)
    requires Core(s)
    ensures s.Pause(id).1 == AnswerIfLive(s, id)
    ensures s.Cancel(id).1 == AnswerIfLive(s, id)
    ensures s.Resume(id).1 == ResumeAnswer(s, id)
  {
    hide Core, CountIn, Sched.PauseGroup, Sched.CancelGroup, Sched.TryStart;
    forall k ensures LedBy(s, k, id) <==> id in s.taskIdToDedupe && s.taskIdToDedupe[id] == k {
      WhoLeads(s, k, id);
    }
    if id in s.taskIdToDedupe {
      var key := s.taskIdToDedupe[id];
      assert LedBy(s, key, id);
      assert Parked(s, key, id) <==> key in s.pausedSet && key !in s.active;
    }
  }

  // ---- over any run ----

  /** The first status that the callback of `id` hears between `s` and `s'`. */
  function FirstHeard(s: Sched, s': Sched, id: TaskId): Option<Status> {
    var before, after := TraceOf(s.emitted, id), TraceOf(s'.emitted, id);
    if |before| < |after| then Some(after[|before|]) else None
  }

  /**
   In every reachable state an enqueue is rejected iff a live group's leader has the same direction and the same
   source (the same file digest for an upload, the same URL for a download). Its callback hears which.
   */
  lemma EnqueueRejectedIff(maxUpload: nat, maxDownload: nat, actions: seq<Action>, task: InnerTask)
    requires AllAllowed(New(maxUpload, maxDownload), actions)
    requires var s := Exec(New(maxUpload, maxDownload), actions); !s.closed && Allowed(s, Enqueue(task))
    ensures var s := Exec(New(maxUpload, maxDownload), actions);
            var s' := Apply(s, Enqueue(task));
            if Taken(s, task)
            then Rejected(s, s', task) && TraceOf(s'.emitted, task.taskId) == [Status.Failed(DuplicateTaskError)]
            else Accepted(s, s', task) && FirstHeard(s, s', task.taskId) == Some(Pending)
  {
    hide Top, Core, TraceOf, Body, Exec, AllAllowed, Rejected, Accepted, InnerTask.DedupeKey, Does;
    var s, a := Exec(New(maxUpload, maxDownload), actions), Enqueue(task);
    NewTop(maxUpload, maxDownload);
    RunKeepsTop(New(maxUpload, maxDownload), actions);
    TopIsCore(s);
    EnqueueDecides(s, task);
    StepFacts(s, a, task.taskId);
    forall k ensures Does(s, k, task) <==> k == task.DedupeKey() && k in s.groups {
      WhoDoes(s, k, task);
    }
  }

  /**
   In every reachable state: pause and cancel are accepted iff the id belongs to a live group, and resume iff that
   group is also paused and its worker has stopped. An accepted command is what its callback hears first.
   */
  lemma ControlAnswers(maxUpload: nat, maxDownload: nat, actions: seq<Action>, id: TaskId)
    requires AllAllowed(New(maxUpload, maxDownload), actions)
    requires !Exec(New(maxUpload, maxDownload), actions).closed
    ensures var s := Exec(New(maxUpload, maxDownload), actions);
            && s.Pause(id).1 == s.Cancel(id).1 == AnswerIfLive(s, id) && s.Resume(id).1 == ResumeAnswer(s, id)
            && (s.Pause(id).1.Ok? <==> FirstHeard(s, s.Pause(id).0, id) == Some(Status.Paused))
            && (s.Cancel(id).1.Ok? <==> FirstHeard(s, s.Cancel(id).0, id) == Some(Status.Canceled))
            && (s.Resume(id).1.Ok? <==> FirstHeard(s, s.Resume(id).0, id) == Some(Pending))
  {
    hide Top, Core, TraceOf, Body, Exec, AllAllowed, AnswerIfLive, ResumeAnswer, Sched.Resume, Sched.PauseGroup,
         Sched.CancelGroup, Sched.TryStart;
    var s := Exec(New(maxUpload, maxDownload), actions);
    NewTop(maxUpload, maxDownload);
    RunKeepsTop(New(maxUpload, maxDownload), actions);
    TopIsCore(s);
    AnswersAre(s, id);
    StepFacts(s, Action.Pause(id), id);
    StepFacts(s, Action.Resume(id), id);
    StepFacts(s, Action.Cancel(id), id);
  }
}
