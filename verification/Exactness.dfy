/**
 The exact condition under which a task's callback is shown its progress rightly, and the runs that show it wrong when
 the condition fails.
 */
module Exactness {
  import opened Basics
  import opened Sequences
  import opened SchedulerState
  import opened Invariants
  import opened Runs
  import opened StatusTrace
  import opened HttpClient
  import opened Worker
  import opened WorkerSafety
  import opened Protocol
  import opened System
  import opened Offsets
  import opened Orphans
  import opened ProgressShown
  import opened Leftovers
  import opened Scenarios

  // ---- shown progress goes back ----

  /** Task `t` has been accepted with `offset`, announced at index `first`, and has not done anything since. */
  ghost predicate Waiting(sys0: Sys, sys: Sys, t: InnerTask, first: nat, offset: u64, file: Option<seq<byte>>,
                          remote: Resources)
  {
    var s, key := sys.sched, t.DedupeKey();
    && Comes(sys0, sys, remote) && SysOk(sys, remote) && !s.closed
    && Owns(s, t.taskId, key) && key in s.groups && s.groups[key].leader == t && key !in s.pausedSet
    && s.Offset(key) == offset && FileAt(sys.files, t.filePath) == file
    && first < |s.emitted| && s.emitted[first] == Emission(t.taskId, t.taskId, Pending, offset, t.totalSize)
    && (key in s.active ==> Untouched(sys, s.active[key], NewWorker(key, t, offset)))
  }

  /** Run `r` has not done anything. */
  ghost predicate Untouched(sys: Sys, r: nat, w: Worker) {
    && r < |sys.workers| == |sys.logs| == |sys.handled|
    && sys.workers[r] == w && sys.logs[r] == [] && sys.handled[r] == 0
  }

  /** A run that was untouched still is, and one that has just been started is. */
  lemma StartedUntouched(sys: Sys, b: Sched, k: Key, w: Worker)
    requires Shape(sys) && b.spawned == sys.sched.spawned && k in b.groups
    requires w == NewWorker(k, b.groups[k].leader, b.Offset(k))
    requires k in b.active ==> Untouched(sys, b.active[k], w)
    ensures var sys' := Spawn(sys, b.TryStart());
            k in sys'.sched.active ==> Untouched(sys', sys'.sched.active[k], w)
  {
    hide Sched.ExamineAll, Spawn, StartedFromGroups, NewWorker;
    var s := b.TryStart();
    PassTokens(b.(queued := [], queuedSet := {}), b.queued, k);
    TryStartStartsLeaders(b);
    SpawnShape(sys, s);
    SpawnSched(sys, s);
    ShapeLengths(Spawn(sys, s));
    if k in b.active {
      SpawnKeepsRuns(sys, s, b.active[k]);
    } else if k in s.active {
      SpawnedWorker(sys, s, s.active[k]);
    }
  }

  lemma AcceptedWaits(sys: Sys, t: InnerTask, remote: Resources)
    requires SysOk(sys, remote) && WouldAccept(sys, t, remote)
    ensures var sys' := Enqueued(sys, t, remote);
            Waiting(sys', sys', t, |sys.sched.emitted|, sys.sched.Offset(t.DedupeKey()),
                    FileAt(sys.files, t.filePath), remote)
  {
    hide SysOk, Comes, Apply, Considerate, Allowed, Spawn, InnerTask.DedupeKey, Untouched, Sched.Admit, Sched.TryStart,
         StartedFromGroups;
    OkIsTop(sys, remote);
    var s, key, b := sys.sched, t.DedupeKey(), sys.sched.Admit(t);
    var sys' := Enqueued(sys, t, remote);
    StepKeepsSysOk(sys, Command(Enqueue(t)), remote);
    ComesFromItself(sys', remote);
    AdmitFields(s, t);
    NoWorkerYet(s, key);
    AppliedEnqueue(s, t);
    EnqueueAnnounces(s, t);
    AdmissionOwns(s, t);
    TryStartStartsLeaders(b);
    StartedUntouched(sys, b, key, NewWorker(key, t, s.Offset(key)));
    SpawnSched(sys, b.TryStart());
  }

  lemma AppliedEnqueue(s: Sched, t: InnerTask)
    requires !s.closed && t.DedupeKey() !in s.groups
    ensures Apply(s, Enqueue(t)) == s.Admit(t).TryStart()
  {
    hide Sched.Admit, Sched.TryStart;
  }

  lemma AppliedCancel(s: Sched, id: TaskId)
    requires !s.closed && id in s.taskIdToDedupe
    ensures Apply(s, Cancel(id)) == s.CancelGroup(s.taskIdToDedupe[id]).TryStart()
  {
    hide Sched.CancelGroup, Sched.TryStart;
  }

  lemma CancelPauses(s: Sched, key: Key)
    ensures s.CancelGroup(key).pausedSet == s.pausedSet - {key} && s.CancelGroup(key).closed == s.closed
  {
    hide CountIn, Keep, Elems;
  }

  lemma CancelCanBeDone(sys: Sys, id: TaskId, remote: Resources)
    requires Shape(sys)
    ensures CanDo(sys, Command(Cancel(id)), remote)
  {
    hide Und;
  }

  /** Cancelling another task leaves a waiting one waiting, or lets it start. */
  lemma CancelOther(sys0: Sys, sys: Sys, t: InnerTask, first: nat, offset: u64, file: Option<seq<byte>>, other: Key,
                    remote: Resources)
    returns (sys': Sys)
    requires Waiting(sys0, sys, t, first, offset, file, remote) && other in sys.sched.groups && other != t.DedupeKey()
    ensures Waiting(sys0, sys', t, first, offset, file, remote) && sys'.sched.groups == sys.sched.groups - {other}
    ensures SameLimits(sys.sched, sys'.sched)
  {
    hide SysOk, Comes, Apply, Considerate, Spawn, InnerTask.DedupeKey, Untouched, Sched.CancelGroup, Sched.TryStart,
         StartedFromGroups, Tells, Hearing, Due, Top, Core;
    OkIsTop(sys, remote);
    var s, key := sys.sched, t.DedupeKey();
    var id := s.groups[other].leader.taskId;
    LeaderOwns(s, other);
    TopIsCore(s);
    CancelCanBeDone(sys, id, remote);
    ComesNext(sys0, sys, Command(Cancel(id)), remote);
    sys' := Do(sys, Command(Cancel(id)), remote);
    var b := s.CancelGroup(other);
    AppliedCancel(s, id);
    CancelFields(s, other);
    CancelPauses(s, other);
    StartFrame(b);
    TryStartStartsLeaders(b);
    StartedUntouched(sys, b, key, NewWorker(key, t, offset));
    SpawnSched(sys, b.TryStart());
    StepTells(s, Cancel(id), t.taskId);
    TellsExtends(s.emitted, b.TryStart().emitted, t.taskId, Hearing(s, Cancel(id), t.taskId),
                 Due(s, Cancel(id), t.taskId));
    ApplyKeepsMax(s, Cancel(id));
    OtherOwners(s, t.taskId, key, other);
  }

  lemma LeaderOwns(s: Sched, key: Key)
    requires Top(s) && key in s.groups
    ensures Owns(s, s.groups[key].leader.taskId, key)
  {
    hide QueueMirror, Phases, Tokens, Bounded, WorkConserving;
  }

  /** Cancelling one key leaves the other ids alone. */
  lemma OtherOwners(s: Sched, id: TaskId, key: Key, other: Key)
    requires Top(s) && Owns(s, id, key) && other in s.groups && other != key
    ensures Owns(s.CancelGroup(other), id, key)
  {
    hide QueueMirror, Phases, Tokens, Bounded, WorkConserving, Sched.CancelGroup;
    CancelIds(s, other);
  }

  lemma SomeActive(active: map<Key, Token>, d: Direction) returns (k: Key)
    requires 0 < CountIn(active, d)
    ensures k in active
  {
    var keys := set k | k in active && k.dir == d;
    k :| k in keys;
  }

  lemma ActiveIsLive(s: Sched, k: Key)
    requires Top(s) && k in s.active
    ensures k in s.groups && k !in s.queuedSet
  {
    hide Identity, Tokens, Bounded, WorkConserving, QueueMirror;
  }

  lemma QueuedBehindFull(s: Sched, k: Key)
    requires Top(s) && k in s.queued
    ensures s.Max(k.dir) <= s.ActiveIn(k.dir)
  {
    hide Identity, Tokens, Bounded, QueueMirror, Phases, CountIn;
  }

  lemma PhaseOf(s: Sched, k: Key)
    requires Top(s) && k in s.groups && k !in s.queued && k !in s.pausedSet
    ensures k in s.active
  {
    hide Identity, Tokens, Bounded, WorkConserving, CountIn;
  }

  /** If its direction has a slot at all, a waiting task starts once enough other tasks are cancelled. */
  lemma {:induction false} GetsStarted(sys0: Sys, sys: Sys, t: InnerTask, first: nat, offset: u64,
                                       file: Option<seq<byte>>, remote: Resources)
    returns (sys': Sys)
    requires Waiting(sys0, sys, t, first, offset, file, remote) && 0 < sys.sched.Max(t.DedupeKey().dir)
    ensures Waiting(sys0, sys', t, first, offset, file, remote) && t.DedupeKey() in sys'.sched.active
    decreases |sys.sched.groups|
  {
    hide SysOk, Comes, InnerTask.DedupeKey, Untouched, Top, CountIn;
    OkIsTop(sys, remote);
    var s, key := sys.sched, t.DedupeKey();
    if key in s.active {
      sys' := sys;
    } else {
      if key !in s.queued {
        PhaseOf(s, key);
      }
      QueuedBehindFull(s, key);
      var other := SomeActive(s.active, key.dir);
      ActiveIsLive(s, other);
      var sys1 := CancelOther(sys0, sys, t, first, offset, file, other, remote);
      FewerGroups(s.groups, other);
      sys' := GetsStarted(sys0, sys1, t, first, offset, file, remote);
    }
  }

  lemma FewerGroups(groups: map<Key, GroupState>, key: Key)
    requires key in groups
    ensures |groups - {key}| < |groups|
  {
    assert (groups - {key}).Keys == groups.Keys - {key};
    assert |groups| == |groups.Keys| && |groups - {key}| == |(groups - {key}).Keys|;
  }

  /** The token of a running task is not cancelled. */
  lemma NotStopped(s: Sched, k: Key)
    requires Top(s) && k in s.active && k !in s.pausedSet
    ensures s.active[k] !in s.cancelled
  {
    hide QueueMirror, Phases, Identity, Bounded, WorkConserving;
  }

  lemma OwnReportShown(s: Sched, e: WorkerEvent, id: TaskId)
    requires Top(s) && Owns(s, id, e.key) && e.Progress?
    ensures s.Handle(e).emitted == s.emitted + [Emission(id, id, Transmission, e.nextOffset, e.totalSize)]
  {
    hide QueueMirror, Phases, Tokens, Bounded, WorkConserving, CountIn;
  }

  /** A download that has been accepted can come to show its callback any amount beyond its file's length. */
  lemma LeftoverIsShown(sys: Sys, t: InnerTask, b: nat, remote: Resources) returns (sys': Sys, last: nat)
    requires SysOk(sys, remote) && WouldAccept(sys, t, remote) && IsDownload(t) && 0 < sys.sched.maxDownload
    requires |OnDisk(sys.files, t.filePath)| < b <= |remote(t.url)| < U64_LIMIT
    ensures Comes(Enqueued(sys, t, remote), sys', remote)
    ensures var log, first := sys'.sched.emitted, |sys.sched.emitted|;
            && first < last < |log|
            && log[first] == Emission(t.taskId, t.taskId, Pending, sys.sched.Offset(t.DedupeKey()), t.totalSize)
            && log[last] == Emission(t.taskId, t.taskId, Transmission, b, |remote(t.url)|)
  {
    hide At, Possible, Considerate, Do, Next, InnerTask.DedupeKey, Comes, Top, SysOk, Sched.Handle, WouldAccept,
         Enqueued;
    OkIsTop(sys, remote);
    KeyDirection(t);
    var n, key, file := |remote(t.url)|, t.DedupeKey(), FileAt(sys.files, t.filePath);
    var offset := sys.sched.Offset(key);
    var sys0 := Enqueued(sys, t, remote);
    AcceptedWaits(sys, t, remote);
    AcceptedLimits(sys, t, remote);
    var sys1 := GetsStarted(sys0, sys0, t, |sys.sched.emitted|, offset, file, remote);
    var r, w := sys1.sched.active[key], NewWorker(key, t, offset);
    OkIsTop(sys1, remote);
    NotStopped(sys1.sched, key);
    StartedAt(sys0, sys1, t, |sys.sched.emitted|, offset, file, remote);
    AcceptedFile(sys, t, remote);
    var a := |OnDisk(sys.files, t.filePath)|;
    var sys2 := CanBegin(sys0, sys1, r, w, file, a, remote);
    var w1 := w.(phase := Sending(a, n, 0));
    var sys3 := CanFetch(sys0, sys2, r, w1, file, a, b, remote);
    var w2, log := Advanced(w1, b, n), [Progress(key, b, n)];
    AtTop(sys0, sys3, r, w2, log, 0, Some(remote(t.url)[..b]), false, remote);
    DeliverAt(sys0, sys3, r, w2, log, 0, Some(remote(t.url)[..b]), false, remote);
    sys' := Do(sys3, Deliver(r), remote);
    AtTop(sys0, sys', r, w2, log, 1, Some(remote(t.url)[..b]), false, remote);
    OwnReportShown(sys3.sched, log[0], t.taskId);
    last := |sys3.sched.emitted|;
  }

  lemma KeyDirection(t: InnerTask)
    ensures t.DedupeKey().dir == t.direction
  {}

  lemma AcceptedLimits(sys: Sys, t: InnerTask, remote: Resources)
    requires SysOk(sys, remote) && WouldAccept(sys, t, remote)
    ensures SameLimits(sys.sched, Enqueued(sys, t, remote).sched)
  {
    hide SysOk, Apply, Considerate, Allowed, Spawn, InnerTask.DedupeKey;
    OkIsTop(sys, remote);
    ApplyKeepsMax(sys.sched, Enqueue(t));
    SpawnSched(sys, Apply(sys.sched, Enqueue(t)));
  }

  /** The file of an accepted download is the beginning of its resource. */
  lemma AcceptedFile(sys: Sys, t: InnerTask, remote: Resources)
    requires Shape(sys) && WouldAccept(sys, t, remote) && IsDownload(t)
    ensures var content := OnDisk(sys.files, t.filePath);
            content <= remote(t.url) && content == remote(t.url)[..|content|]
  {
    hide Careful, Allowed;
  }

  lemma StartedAt(sys0: Sys, sys: Sys, t: InnerTask, first: nat, offset: u64, file: Option<seq<byte>>,
                  remote: Resources)
    requires Waiting(sys0, sys, t, first, offset, file, remote) && t.DedupeKey() in sys.sched.active
    requires sys.sched.active[t.DedupeKey()] !in sys.sched.cancelled
    ensures At(sys0, sys, sys.sched.active[t.DedupeKey()], NewWorker(t.DedupeKey(), t, offset), [], 0, file, false,
               remote)
  {
    hide SysOk, Comes, InnerTask.DedupeKey;
  }

  // ---- the exact condition ----

  /** The announcement of an accepted task alone shows its inherited offset. */
  lemma AnnouncedBeyond(sys: Sys, t: InnerTask, remote: Resources)
    requires SysOk(sys, remote) && WouldAccept(sys, t, remote)
    requires Total(t, remote(t.url)) < sys.sched.Offset(t.DedupeKey())
    ensures !RightlyShown(Enqueued(sys, t, remote).sched.emitted, t.taskId, Total(t, remote(t.url)))
  {
    hide SysOk, Comes, InnerTask.DedupeKey, Untouched;
    AcceptedWaits(sys, t, remote);
  }

  /** What is shown rightly has no later record with less. */
  lemma NoLessLater(log: seq<Emission>, id: TaskId, limit: nat, i: nat, j: nat)
    requires RightlyShown(log, id, limit) && i < j < |log| && log[i].to == id && log[j].to == id
    ensures log[i].transferred <= log[j].transferred
  {}

  /**
   The exact condition. A task is accepted whose direction has a slot. In every continuation its callback is shown
   things rightly, within its total and never less than before, iff the task is safe with the offset that the history
   of its key left it.
   */
  lemma ShownRightlyIffSafe(maxUpload: nat, maxDownload: nat, files: map<string, seq<byte>>, before: seq<Step>,
                            sys: Sys,
                            t: InnerTask, remote: Resources)
    requires Leads(Init(maxUpload, maxDownload, files), before, sys, remote) && Shape(sys)
    requires WouldAccept(sys, t, remote)
    requires IsDownload(t) ==> 0 < sys.sched.maxDownload && |remote(t.url)| < U64_LIMIT
    ensures (forall after, sys' :: Leads(Enqueued(sys, t, remote), after, sys', remote) ==>
               RightlyShown(sys'.sched.emitted, t.taskId, Total(t, remote(t.url))))
            <==> Safe(t, LeftBy(LifeOf(Gone, Init(maxUpload, maxDownload, files), before, t.DedupeKey(), remote)),
                      sys.files, remote)
  {
    hide Leads, LifeOf, SysOk, WouldAccept, Enqueued, Safe, RightlyShown, InnerTask.DedupeKey;
    var offset := LeftBy(LifeOf(Gone, Init(maxUpload, maxDownload, files), before, t.DedupeKey(), remote));
    InheritedOffset(maxUpload, maxDownload, files, before, sys, t, remote);
    if Safe(t, offset, sys.files, remote) {
      forall after, sys' | Leads(Enqueued(sys, t, remote), after, sys', remote)
        ensures RightlyShown(sys'.sched.emitted, t.taskId, Total(t, remote(t.url)))
      {
        ProgressNeverGoesBack(maxUpload, maxDownload, files, before, sys, t, after, sys', remote);
      }
    } else {
      var after, sys' := Unsafe(sys, t, offset, remote);
    }
  }

  /** An unsafe task has a continuation that shows it wrong. */
  lemma Unsafe(sys: Sys, t: InnerTask, offset: u64, remote: Resources) returns (after: seq<Step>, sys': Sys)
    requires SysOk(sys, remote) && WouldAccept(sys, t, remote) && offset == sys.sched.Offset(t.DedupeKey())
    requires !Safe(t, offset, sys.files, remote)
    requires IsDownload(t) ==> 0 < sys.sched.maxDownload && |remote(t.url)| < U64_LIMIT
    ensures Leads(Enqueued(sys, t, remote), after, sys', remote)
    ensures !RightlyShown(sys'.sched.emitted, t.taskId, Total(t, remote(t.url)))
  {
    hide Leads, SysOk, WouldAccept, Enqueued, RightlyShown, InnerTask.DedupeKey;
    OkIsTop(sys, remote);
    if Total(t, remote(t.url)) < offset {
      AnnouncedBeyond(sys, t, remote);
      ComesFromItself(Enqueued(sys, t, remote), remote);
      sys' := Enqueued(sys, t, remote);
    } else {
      AcceptedFile(sys, t, remote);
      var last: nat;
      sys', last := LeftoverIsShown(sys, t, |OnDisk(sys.files, t.filePath)| + 1, remote);
      if RightlyShown(sys'.sched.emitted, t.taskId, Total(t, remote(t.url))) {
        NoLessLater(sys'.sched.emitted, t.taskId, Total(t, remote(t.url)), |sys.sched.emitted|, last);
      }
    }
    after :| Leads(Enqueued(sys, t, remote), after, sys', remote);
  }

  /**
   Such tasks occur: of any two downloads of one resource of at least three bytes into different files, let the first
   be paused after two bytes and cancelled. The second one's callback can then be shown two bytes, and later one.
   */
  lemma ProgressCanGoBack(t: InnerTask, t': InnerTask, remote: Resources)
    requires IsDownload(t) && IsDownload(t') && t.url == t'.url && t.filePath != t'.filePath && t.taskId != t'.taskId
    requires 1 <= t.chunkSize && 1 <= t'.chunkSize && 3 <= |remote(t.url)| < U64_LIMIT
    ensures exists sys, i: nat, j: nat ::
              && Reachable(sys, remote) && i < j < |sys.sched.emitted|
              && sys.sched.emitted[i].to == sys.sched.emitted[j].to == t'.taskId
              && sys.sched.emitted[i].transferred > sys.sched.emitted[j].transferred
  {
    hide Comes, SysOk, Fresh, Top, RoomFor, Alone, Leads, WouldAccept, Enqueued, Reachable;
    var sys0 := Init(1, 1, map[]);
    var sys := CanPark(t, 2, remote);
    assert FileAt(sys.files, t'.filePath) == None && OnDisk(sys.files, t'.filePath) == [];
    var sys1 := ParkedCancel(sys0, sys, t, t', 2, remote);
    assert FileAt(sys1.files, t'.filePath) == None && OnDisk(sys1.files, t'.filePath) == [];
    var sys2, last := LeftoverIsShown(sys1, t', 1, remote);
    ComesOn(sys0, sys1, t', sys2, remote);
    ComesIsReachable(1, 1, map[], sys2, remote);
  }

  /** A parked task is cancelled: its offset stays, and its key is free for another task. */
  lemma ParkedCancel(sys0: Sys, sys: Sys, t: InnerTask, t': InnerTask, offset: u64, remote: Resources)
    returns (sys1: Sys)
    requires Parked(sys0, sys, t, offset, remote) && t'.DedupeKey() == t.DedupeKey() && t'.taskId != t.taskId
    requires Ready(sys.files, t', remote)
    ensures Comes(sys0, sys1, remote) && SysOk(sys1, remote) && sys1.files == sys.files && WouldAccept(sys1, t', remote)
    ensures sys1.sched.Offset(t'.DedupeKey()) == offset && sys1.sched.maxDownload == 1
  {
    hide Comes, Top, Ordered, RunsOk, GroupsReady, Apply, Spawn, InnerTask.DedupeKey, Fresh, Ready, Sched.CancelGroup,
         Sched.TryStart;
    var s, key, b := sys.sched, t.DedupeKey(), sys.sched.CancelGroup(t.DedupeKey());
    AloneOwns(s, t);
    ComesNext(sys0, sys, Command(Cancel(t.taskId)), remote);
    sys1 := Do(sys, Command(Cancel(t.taskId)), remote);
    AppliedCancel(s, t.taskId);
    TopIsCore(s);
    CancelFields(s, key);
    CancelPauses(s, key);
    StartFrame(b);
    TryStartStartsLeaders(b);
    ApplyKeepsMax(s, Cancel(t.taskId));
    CancelFreesKey(s, t.taskId, key, t'.taskId);
    assert b.groups == map[];
    NothingStarted(b.groups, b.spawned, b.TryStart().spawned);
    SpawnSame(sys, b.TryStart());
    NothingUndrained(sys1);
  }

  lemma NothingStarted(groups: map<Key, GroupState>, spawned: seq<Run>, spawned': seq<Run>)
    requires groups == map[] && spawned <= spawned' && StartedFromGroups(groups, spawned', |spawned|)
    ensures spawned' == spawned
  {
    if |spawned| < |spawned'| {
      SomethingStarted(groups, spawned', |spawned|);
    }
  }

  lemma SomethingStarted(groups: map<Key, GroupState>, spawned: seq<Run>, from: nat)
    requires StartedFromGroups(groups, spawned, from) && from < |spawned|
    ensures groups != map[]
  {
    assert spawned[from].key in groups;
  }

  lemma NothingUndrained(sys: Sys)
    requires Shape(sys) && |sys.workers| == 1 && sys.workers[0].phase.Over? && sys.handled[0] == |sys.logs[0]|
    ensures Und(sys) == {}
  {}

  lemma {:induction false} LeadsAppend(sys0: Sys, steps: seq<Step>, sys1: Sys, more: seq<Step>, sys2: Sys,
                                       remote: Resources)
    requires Leads(sys0, steps, sys1, remote) && Leads(sys1, more, sys2, remote)
    ensures Leads(sys0, steps + more, sys2, remote)
    decreases |steps|
  {
    hide Do, Possible, Considerate, Shape;
    if steps == [] {
      assert [] + more == more;
    } else {
      assert (steps + more)[1..] == steps[1..] + more;
      LeadsAppend(Do(sys0, steps[0], remote), steps[1..], sys1, more, sys2, remote);
    }
  }

  lemma ComesOn(sys0: Sys, sys1: Sys, t: InnerTask, sys2: Sys, remote: Resources)
    requires Comes(sys0, sys1, remote) && SysOk(sys1, remote) && WouldAccept(sys1, t, remote)
    requires Comes(Enqueued(sys1, t, remote), sys2, remote)
    ensures Comes(sys0, sys2, remote)
  {
    hide Leads, SysOk, Possible, Considerate, Do, Shape;
    OkIsTop(sys1, remote);
    ComesNext(sys0, sys1, Command(Enqueue(t)), remote);
    var steps :| Leads(sys0, steps, Enqueued(sys1, t, remote), remote);
    var more :| Leads(Enqueued(sys1, t, remote), more, sys2, remote);
    LeadsAppend(sys0, steps, Enqueued(sys1, t, remote), more, sys2, remote);
  }
}
