/**
 The scheduler as the source runs it: one mutable state, updated in place by the command arms, the
 event handler and the start loop. Every method is proved against `SchedulerState.Sched`.
 */
module Scheduler {
  import opened Basics
  import opened Sequences
  import opened SchedulerState
  import opened Invariants
  import opened Answers
  import StartOrder

  class State {
    const maxUploadConcurrency: nat
    const maxDownloadConcurrency: nat
    var groups: map<Key, GroupState>
    var taskIdToDedupe: map<TaskId, Key>
    var queued: seq<Key>
    var queuedSet: set<Key>
    var pausedSet: set<Key>
    var active: map<Key, Token>
    var offsets: map<Key, u64>

    // What the scheduler has done to the outside world.
    var cancelled: set<Token>
    var spawned: seq<Run>
    var emitted: seq<Emission>
    var closed: bool

    function Model(): Sched
      reads this
    {
      Sched(maxUploadConcurrency, maxDownloadConcurrency, groups, taskIdToDedupe, queued, queuedSet, pausedSet,
            active, offsets, cancelled, spawned, emitted, closed)
    }

    ghost predicate Valid()
      reads this
    {
      Core(Model())
    }

    constructor (maxUpload: nat, maxDownload: nat)
      ensures Model() == New(maxUpload, maxDownload)
      ensures Valid()
    {
      maxUploadConcurrency, maxDownloadConcurrency := maxUpload, maxDownload;
      groups, taskIdToDedupe, queued, queuedSet, pausedSet := map[], map[], [], {}, {};
      active, offsets, cancelled, spawned, emitted, closed := map[], map[], {}, [], [], false;
      new;
      NewTop(maxUpload, maxDownload);
    }

    function CanStartDirection(direction: Direction): bool
      reads this
    {
      match direction
      case Upload => CountIn(active, direction) < maxUploadConcurrency
      case Download => CountIn(active, direction) < maxDownloadConcurrency
    }

    function Offset(key: Key): u64
      reads this
    {
      if key in offsets then offsets[key] else 0
    }

    method EmitStatus(entry: InnerTask, status: Status, transferred: u64, total: u64)
      modifies this`emitted
      ensures emitted == old(emitted) + [Emission(entry.taskId, entry.taskId, status, transferred, total)]
    {
      emitted := emitted + [Emission(entry.taskId, entry.taskId, status, transferred, total)];
    }

    /** Spawn a `run_group` worker with a fresh token. */
    method StartWorker(key: Key)
      requires key in groups
      modifies this`emitted, this`active, this`spawned
      ensures Model() == old(Model()).Start(key)
    {
      EmitStatus(groups[key].entry, Transmission, Offset(key), groups[key].entry.totalSize);
      var token := |spawned|;
      active := active[key := token];
      spawned := spawned + [Run(key, groups[key].leader, Offset(key))];
    }

    /** Take the key at the front of the queue and drop it, put it back at the end, or start it. */
    method ExamineFront() returns (key: Key, didStart: bool)
      requires queued != []
      modifies this`queued, this`queuedSet, this`active, this`spawned, this`emitted
      ensures key == old(queued[0])
      ensures Model() == Rotated(old(Model()))
      ensures if didStart then |queued| < old(|queued|) else |queued| <= old(|queued|)
      ensures didStart ==>
                key in groups && spawned == old(spawned) + [Run(key, groups[key].leader, Offset(key))]
      ensures !didStart ==> spawned == old(spawned)
    {
      hide CountIn;
      key := queued[0];
      didStart := false;
      queued := queued[1..];
      queuedSet := queuedSet - {key};
      if key in active {
        return;
      }
      if key !in groups {
        return;
      }
      if !CanStartDirection(key.dir) {
        queued := queued + [key];
        queuedSet := queuedSet + {key};
        return;
      }
      StartWorker(key);
      didStart := true;
    }

    /** Rotate the queue, round after round, until a round starts nothing. */
    method TryStartNext() returns (started: set<Key>)
      requires Valid()
      modifies this`queued, this`queuedSet, this`active, this`spawned, this`emitted
      ensures Model() == old(Model()).TryStart()
      ensures Top(Model())
      ensures |old(spawned)| <= |spawned|
      ensures started == KeysFrom(spawned, |old(spawned)|)
    {
      hide Core, InPass, CountIn, Elems;
      started := {};
      while true
        invariant Valid()
        invariant Model().TryStart() == old(Model()).TryStart()
        invariant |old(spawned)| <= |spawned|
        invariant started == KeysFrom(spawned, |old(spawned)|)
        decreases |queued|
      {
        var queuedLen := |queued|;
        if queuedLen == 0 {
          EmptyQueue(Model());
          break;
        }
        ghost var s0, q := Model(), queued;
        ghost var s := s0.(queued := [], queuedSet := {});  // the state without the keys still to come
        StartOfRound(s0);
        assert q[0..] == q;
        var scheduledInThisRound := false;
        for n := 0 to queuedLen
          invariant InPass(s, q[n..])
          invariant s.ExamineAll(q[n..]) == s0.TryStart()
          invariant Model() == WithAhead(s, q[n..])
          invariant if scheduledInThisRound then |queued| < queuedLen else |queued| <= queuedLen
          invariant |old(spawned)| <= |spawned|
          invariant started == KeysFrom(spawned, |old(spawned)|)
        {
          ghost var rest := q[n..];
          assert rest != [] && rest[1..] == q[n + 1..];
          if queued == [] {
            break;
          }
          FrontOfRound(s, rest);
          ghost var before := spawned;
          var key, didStart := ExamineFront();
          if didStart {
            KeysFromSnoc(before, spawned[|before|], |old(spawned)|);
            started := started + {key};
            scheduledInThisRound := true;
          }
          ExamineKeepsPass(s, rest);
          s := s.Examine(key);
        }
        assert q[queuedLen..] == [];
        EndOfRound(s, s0);
        if !scheduledInThisRound {
          break;
        }
      }
      TryStartReachesTop(old(Model()));
    }

    // ---- the command arms ----

    method PushIfIdle(key: Key)
      modifies this`queued, this`queuedSet
      ensures Model() == old(Model()).PushIfIdle(key)
    {
      if key !in active && key !in queuedSet {
        queued := queued + [key];
        queuedSet := queuedSet + {key};
      }
    }

    /** A fresh task id is drawn for every enqueued task. */
    method Enqueue(inner: InnerTask)
      requires Valid() && inner.taskId !in taskIdToDedupe
      modifies this
      ensures Model() == old(Model()).Enqueue(inner)
      ensures if Taken(old(Model()), inner) then Rejected(old(Model()), Model(), inner)
              else Accepted(old(Model()), Model(), inner)
      ensures Valid()
    {
      hide Core, CountIn, Taken, Rejected, Accepted, InnerTask.DedupeKey, Sched.TryStart;
      ghost var s := Model();
      var key := inner.DedupeKey();
      if key in groups {
        var leader := groups[key].leader;
        var duplicate := Status.Failed(DuplicateTaskError);
        emitted := emitted + [Emission(inner.taskId, leader.taskId, duplicate, 0, leader.totalSize)];
        RejectKeepsCore(s, inner);
        EnqueueDecides(s, inner);
        return;
      }
      AdmitKeepsCore(Model(), inner);
      taskIdToDedupe := taskIdToDedupe[inner.taskId := key];
      var shouldSendRunning := key in active;
      groups := groups[key := GroupState(inner, inner)];
      var current := Offset(key);
      EmitStatus(inner, Pending, current, inner.totalSize);
      if shouldSendRunning {
        EmitStatus(inner, Transmission, current, inner.totalSize);
      }
      PushIfIdle(key);
      assert Model() == s.Admit(inner);
      var _ := TryStartNext();
      TopIsCore(Model());
      EnqueueDecides(s, inner);
    }

    lemma KnownIdHasGroup(s: Sched, id: TaskId)
      requires Core(s) && id in s.taskIdToDedupe
      ensures s.taskIdToDedupe[id] in s.groups
    {}

    method Unqueue(key: Key)
      modifies this`queued, this`queuedSet
      ensures Model() == old(Model()).Unqueue(key)
    {
      queued := Keep(queued, Elems(queued) - {key});
      queuedSet := queuedSet - {key};
    }

    method PauseGroup(key: Key)
      requires Valid() && key in groups
      modifies this
      ensures Model() == old(Model()).PauseGroup(key)
      ensures Valid()
    {
      hide Core, Keep, Elems;
      PauseGroupKeepsCore(Model(), key);
      if key in active {
        cancelled := cancelled + {active[key]};
      }
      Unqueue(key);
      pausedSet := pausedSet + {key};
      if key in groups {
        EmitStatus(groups[key].entry, Status.Paused, Offset(key), groups[key].entry.totalSize);
      }
    }

    method ResumeGroup(key: Key) returns (r: Result<()>)
      requires Valid()
      modifies this
      ensures (Model(), r) == old(Model()).ResumeGroup(key)
      ensures Valid()
    {
      hide Core;
      ResumeGroupKeepsCore(Model(), key);
      if key !in pausedSet {
        return Err(InvalidTaskState);
      }
      if key in active {
        return Err(InvalidTaskState);
      }
      pausedSet := pausedSet - {key};
      if key !in groups {
        return Err(InvalidTaskState);
      }
      EmitStatus(groups[key].entry, Pending, Offset(key), groups[key].entry.totalSize);
      PushIfIdle(key);
      return Ok(());
    }

    /** Remove the group and its id, then report its last status. */
    method EndGroup(key: Key, status: Status, transferred: u64, total: u64)
      requires key in groups
      modifies this`groups, this`taskIdToDedupe, this`emitted
      ensures Model() == old(Model()).EndGroup(key, status, transferred, total)
    {
      var group := groups[key];
      groups := groups - {key};
      taskIdToDedupe := taskIdToDedupe - {group.leader.taskId};
      EmitStatus(group.entry, status, transferred, total);
    }

    method CancelGroup(key: Key)
      requires Valid()
      modifies this
      ensures Model() == old(Model()).CancelGroup(key)
      ensures Valid()
    {
      hide Core, Keep, Elems, CountIn, InnerTask.DedupeKey, Sched.EndGroup, Sched.Unqueue;
      CancelGroupKeepsCore(Model(), key);
      if key in active {
        var token := active[key];
        active := active - {key};
        cancelled := cancelled + {token};
      } else {
        assert active - {key} == active;
      }
      ghost var stopped := old(Model()).Stop(key);
      assert Model() == stopped.(active := stopped.active - {key});
      Unqueue(key);
      assert Model() == stopped.(active := stopped.active - {key}).Unqueue(key);
      pausedSet := pausedSet - {key};
      if key in groups {
        EndGroup(key, Status.Canceled, Offset(key), groups[key].entry.totalSize);
      }
    }

    method Pause(taskId: TaskId) returns (r: Result<()>)
      requires Valid()
      modifies this
      ensures (Model(), r) == old(Model()).Pause(taskId)
      ensures r == AnswerIfLive(old(Model()), taskId)
      ensures Valid()
    {
      hide Core, AnswerIfLive;
      AnswersAre(Model(), taskId);
      if taskId in taskIdToDedupe {
        KnownIdHasGroup(Model(), taskId);
        PauseGroup(taskIdToDedupe[taskId]);
        r := Ok(());
      } else {
        r := Err(TaskNotFound);
      }
      var _ := TryStartNext();
      TopIsCore(Model());
    }

    method Resume(taskId: TaskId) returns (r: Result<()>)
      requires Valid()
      modifies this
      ensures (Model(), r) == old(Model()).Resume(taskId)
      ensures r == ResumeAnswer(old(Model()), taskId)
      ensures Valid()
    {
      hide Core, ResumeAnswer;
      AnswersAre(Model(), taskId);
      if taskId in taskIdToDedupe {
        r := ResumeGroup(taskIdToDedupe[taskId]);
      } else {
        r := Err(TaskNotFound);
      }
      var _ := TryStartNext();
      TopIsCore(Model());
    }

    method Cancel(taskId: TaskId) returns (r: Result<()>)
      requires Valid()
      modifies this
      ensures (Model(), r) == old(Model()).Cancel(taskId)
      ensures r == AnswerIfLive(old(Model()), taskId)
      ensures Valid()
    {
      hide Core, AnswerIfLive;
      AnswersAre(Model(), taskId);
      if taskId in taskIdToDedupe {
        CancelGroup(taskIdToDedupe[taskId]);
        r := Ok(());
      } else {
        r := Err(TaskNotFound);
      }
      var _ := TryStartNext();
      TopIsCore(Model());
    }

    /** Signal every running worker. */
    method StopAll()
      modifies this`cancelled
      ensures cancelled == old(cancelled) + active.Values
    {
      var rest := active.Keys;
      while rest != {}
        invariant rest <= active.Keys
        invariant cancelled == old(cancelled) + (set k | k in active.Keys - rest :: active[k])
        decreases |rest|
      {
        var key :| key in rest;
        cancelled := cancelled + {active[key]};
        rest := rest - {key};
      }
      assert active.Values == set k | k in active.Keys :: active[k];
    }

    /** Report every group as paused, in the order in which the hash map happens to be walked. */
    method ReportPaused() returns (order: seq<Key>)
      modifies this`emitted
      ensures NoDup(order) && Elems(order) == groups.Keys
      ensures Model() == old(Model()).EmitPaused(order)
    {
      order := [];
      var rest := groups.Keys;
      while rest != {}
        invariant rest <= groups.Keys
        invariant NoDup(order) && Elems(order) == groups.Keys - rest
        invariant Model() == old(Model()).EmitPaused(order)
        decreases |rest|
      {
        var key :| key in rest;
        EmitStatus(groups[key].entry, Status.Paused, Offset(key), groups[key].entry.totalSize);
        EmitPausedSnoc(old(Model()), order, key);
        NoDupSnoc(order, key);
        order := order + [key];
        rest := rest - {key};
      }
    }

    method Forget()
      modifies this
      ensures Model() == old(Model()).(active := map[], groups := map[], taskIdToDedupe := map[], queued := [],
                                       queuedSet := {}, pausedSet := {}, offsets := map[], closed := true)
    {
      active, groups, taskIdToDedupe := map[], map[], map[];
      queued, queuedSet, pausedSet, offsets := [], {}, {}, map[];
      closed := true;
    }

    /** Stop every worker, report every group as paused, forget everything and leave the command loop. */
    method Close() returns (order: seq<Key>)
      requires Valid()
      modifies this
      ensures NoDup(order) && Elems(order) == old(groups.Keys)
      ensures Model() == old(Model()).Close(order)
      ensures cancelled == old(cancelled) + old(active).Values
      ensures Valid()
    {
      hide Core, Elems, NoDup, Sched.EmitPaused, Top;
      StopAll();
      order := ReportPaused();
      Forget();
      CloseKeepsTop(old(Model()), order);
      TopIsCore(Model());
    }

    lemma {:induction false} EmitPausedSnoc(s: Sched, keys: seq<Key>, key: Key)
      ensures s.EmitPaused(keys + [key]) == s.EmitPaused(keys).EmitIfLive(key, Status.Paused)
      decreases |keys|
    {
      if keys == [] {
        assert [key][1..] == [];
      } else {
        assert (keys + [key])[1..] == keys[1..] + [key];
        EmitPausedSnoc(s.EmitIfLive(keys[0], Status.Paused), keys[1..], key);
      }
    }

    lemma RejectKeepsCore(s: Sched, task: InnerTask)
      requires Core(s) && task.DedupeKey() in s.groups
      ensures Core(s.Reject(task))
    {
      hide QueueMirror, Phases, Identity, Tokens, Bounded;
    }

    // ---- worker events ----

    method HandleWorkerEvent(event: WorkerEvent)
      requires Valid()
      modifies this
      ensures Model() == old(Model()).Handle(event)
      ensures Valid()
    {
      hide Core;
      HandleKeepsCore(Model(), event);
      match event {
        case Progress(key, nextOffset, totalSize) => OnProgress(key, nextOffset, totalSize);
        case Completed(key, totalSize) => OnCompleted(key, totalSize);
        case Failed(key, error) => OnFailed(key, error);
        case Canceled(key) => OnCanceled(key);
      }
    }

    method OnProgress(key: Key, nextOffset: u64, totalSize: u64)
      modifies this
      ensures Model() == old(Model()).Handle(Progress(key, nextOffset, totalSize))
    {
      offsets := offsets[key := nextOffset];
      if key in groups {
        EmitStatus(groups[key].entry, Transmission, nextOffset, totalSize);
      }
    }

    method OnCompleted(key: Key, totalSize: u64)
      modifies this
      ensures Model() == old(Model()).Handle(Completed(key, totalSize))
    {
      active := active - {key};
      pausedSet := pausedSet - {key};
      offsets := offsets[key := totalSize];
      if key in groups {
        EndGroup(key, Complete, totalSize, totalSize);
      }
      offsets := offsets - {key};
    }

    method OnFailed(key: Key, error: ErrorCode)
      modifies this
      ensures Model() == old(Model()).Handle(WorkerEvent.Failed(key, error))
    {
      active := active - {key};
      pausedSet := pausedSet - {key};
      if key in groups {
        EndGroup(key, Status.Failed(error), Offset(key), groups[key].entry.totalSize);
      }
      offsets := offsets - {key};
    }

    /** A worker that stopped because of a pause keeps its group. */
    method OnCanceled(key: Key)
      modifies this
      ensures Model() == old(Model()).Handle(WorkerEvent.Canceled(key))
    {
      active := active - {key};
      if key in pausedSet {
        return;
      }
      if key in groups {
        EndGroup(key, Status.Canceled, Offset(key), groups[key].entry.totalSize);
      }
      offsets := offsets - {key};
    }

    /** One worker event, as the command loop processes it. */
    method OnWorkerEvent(event: WorkerEvent)
      requires Valid()
      modifies this
      ensures Model() == old(Model()).Event(event)
      ensures Valid()
    {
      hide Core;
      HandleWorkerEvent(event);
      var _ := TryStartNext();
      TopIsCore(Model());
    }

    // ---- facts used by the start loop ----

    lemma EmptyQueue(s: Sched)
      requires Core(s) && s.queued == []
      ensures s.TryStart() == s
    {}

    lemma StartOfRound(s: Sched)
      requires Core(s)
      ensures s == WithAhead(s.(queued := [], queuedSet := {}), s.queued)
      ensures InPass(s.(queued := [], queuedSet := {}), s.queued)
    {
      hide Core, InPass, Elems;
      CoreMirror(s);
      CoreStartsPass(s);
      assert s.queued + [] == s.queued;
      assert Elems(s.queued) + {} == s.queuedSet;
    }

    lemma NothingAhead(s: Sched)
      ensures WithAhead(s, []) == s
    {
      assert [] + s.queued == s.queued;
      assert Elems<Key>([]) + s.queuedSet == s.queuedSet;
    }

    lemma EndOfRound(s: Sched, s0: Sched)
      requires Core(s0) && s == s0.TryStart()
      ensures WithAhead(s, []) == s && Core(s) && s.TryStart() == s
    {
      hide Core, WithAhead;
      NothingAhead(s);
      TryStartReachesTop(s0);
      StartOrder.SecondRoundStartsNothing(s);
    }

    lemma CoreMirror(s: Sched)
      requires Core(s)
      ensures Elems(s.queued) == s.queuedSet
    {}

    lemma FrontOfRound(s: Sched, rest: seq<Key>)
      requires rest != [] && InPass(s, rest)
      ensures WithAhead(s, rest).queued[0] == rest[0]
      ensures Rotated(WithAhead(s, rest)) == WithAhead(s.Examine(rest[0]), rest[1..])
    {
      hide InPass, Elems, Sched.Examine;
      PassSets(s, rest);
      assert (rest + s.queued)[1..] == rest[1..] + s.queued;
      ExamineBehind(s, rest[0], rest[1..], Elems(rest[1..]));
    }

    /** What happens to a key does not depend on what waits in front of the queue. */
    lemma ExamineBehind(s: Sched, key: Key, ahead: seq<Key>, aheadSet: set<Key>)
      ensures var s1 := s.Examine(key);
              s.(queued := ahead + s.queued, queuedSet := aheadSet + s.queuedSet).Examine(key)
              == s1.(queued := ahead + s1.queued, queuedSet := aheadSet + s1.queuedSet)
    {
      hide CountIn;
      assert ahead + s.queued + [key] == ahead + (s.queued + [key]);
      assert aheadSet + s.queuedSet + {key} == aheadSet + (s.queuedSet + {key});
    }

    lemma PassSets(s: Sched, rest: seq<Key>)
      requires rest != [] && InPass(s, rest)
      ensures Elems(rest) + s.queuedSet - {rest[0]} == Elems(rest[1..]) + s.queuedSet
    {
      NoDupTail(rest);
      assert rest[0] in Elems(rest);
    }
  }

  /** The state with keys ahead of the ones already put back in this round. */
  ghost function WithAhead(s: Sched, ahead: seq<Key>): Sched {
    s.(queued := ahead + s.queued, queuedSet := Elems(ahead) + s.queuedSet)
  }

  function Rotated(s: Sched): Sched
    requires s.queued != []
  {
    s.(queued := s.queued[1..], queuedSet := s.queuedSet - {s.queued[0]}).Examine(s.queued[0])
  }

  ghost function KeysFrom(runs: seq<Run>, from: nat): set<Key> {
    set i | from <= i < |runs| :: runs[i].key
  }

  lemma KeysFromSnoc(runs: seq<Run>, run: Run, from: nat)
    requires from <= |runs|
    ensures KeysFrom(runs + [run], from) == KeysFrom(runs, from) + {run.key}
  {
    var longer := runs + [run];
    assert longer[|runs|] == run;
    assert forall i :: 0 <= i < |runs| ==> longer[i] == runs[i];
    forall k | k in KeysFrom(runs, from) + {run.key} ensures k in KeysFrom(longer, from) {
      if k != run.key {
        var i :| from <= i < |runs| && runs[i].key == k;
        assert longer[i].key == k;
      } else {
        assert longer[|runs|].key == k;
      }
    }
  }
}
