/**
 What the scheduler's seven structures agree on, and that every command and every worker event,
 stale or not, keeps it.
 */
module Invariants {
  import opened Basics
  import opened Sequences
  import opened SchedulerState

  /** `queued_set` mirrors the queue, which never holds a key twice. */
  ghost predicate QueueMirror(queued: seq<Key>, queuedSet: set<Key>) {
    NoDup(queued) && queuedSet == Elems(queued)
  }

  /** Every group is queued, active or paused; only "active and paused" (stopping) overlap. */
  ghost predicate Phases(groups: set<Key>, queued: set<Key>, active: set<Key>, paused: set<Key>) {
    && queued !! active
    && queued !! paused
    && active <= groups
    && paused <= groups
    && groups <= queued + active + paused
  }

  /** `groups` and `task_id_to_dedupe` are mutually inverse. */
  ghost predicate Identity(groups: map<Key, GroupState>, ids: map<TaskId, Key>) {
    && (forall k :: k in groups ==>
          && groups[k].entry == groups[k].leader
          && groups[k].leader.DedupeKey() == k
          && groups[k].leader.taskId in ids
          && ids[groups[k].leader.taskId] == k)
    && (forall id :: id in ids ==> ids[id] in groups && groups[ids[id]].leader.taskId == id)
  }

  /** A key's token is the one its worker was started with, and it is cancelled iff the key is paused. */
  ghost predicate Tokens(groups: map<Key, GroupState>, active: map<Key, Token>, paused: set<Key>,
                         cancelled: set<Token>, spawned: seq<Run>) {
    && (forall t :: t in cancelled ==> t < |spawned|)
    && (forall k :: k in active ==>
          && k in groups
          && active[k] < |spawned|
          && spawned[active[k]].key == k
          && spawned[active[k]].task == groups[k].leader
          && (active[k] in cancelled <==> k in paused))
  }

  ghost predicate Bounded(active: map<Key, Token>, maxUpload: nat, maxDownload: nat) {
    CountIn(active, Upload) <= maxUpload && CountIn(active, Download) <= maxDownload
  }

  /** Holds after every single update, also between an event and the start loop that follows it. */
  ghost predicate Core(s: Sched) {
    && QueueMirror(s.queued, s.queuedSet)
    && Phases(s.groups.Keys, s.queuedSet, s.active.Keys, s.pausedSet)
    && Identity(s.groups, s.taskIdToDedupe)
    && Tokens(s.groups, s.active, s.pausedSet, s.cancelled, s.spawned)
    && Bounded(s.active, s.maxUpload, s.maxDownload)
  }

  /** No task waits while its direction has a free slot. */
  ghost predicate WorkConserving(s: Sched) {
    forall k :: k in s.queued ==> k in s.groups && !s.CanStart(k.dir)
  }

  /** Holds whenever the command loop waits for its next message. */
  ghost predicate Top(s: Sched) {
    Core(s) && WorkConserving(s)
  }

  lemma TopIsCore(s: Sched)
    requires Top(s)
    ensures Core(s)
  {}

  lemma NewTop(maxUpload: nat, maxDownload: nat)
    ensures Top(New(maxUpload, maxDownload))
  {
    var none: map<Key, Token> := map[];
    assert (set k | k in none && k.dir == Upload) == {};
    assert (set k | k in none && k.dir == Download) == {};
  }

  // ---- counting active keys ----

  lemma CountGrows(active: map<Key, Token>, key: Key, t: Token, d: Direction)
    requires key !in active
    ensures CountIn(active[key := t], d) == CountIn(active, d) + (if key.dir == d then 1 else 0)
  {
    var before := set k | k in active && k.dir == d;
    var after := set k | k in active[key := t] && k.dir == d;
    assert after == if key.dir == d then before + {key} else before;
  }

  lemma CountShrinks(active: map<Key, Token>, key: Key, d: Direction)
    ensures CountIn(active - {key}, d) <= CountIn(active, d)
  {
    SubsetSize((set k | k in active - {key} && k.dir == d), (set k | k in active && k.dir == d));
  }

  lemma SubsetSize<T>(a: set<T>, b: set<T>)
    requires a <= b
    ensures |a| <= |b|
  {
    assert b == a + (b - a);
  }

  lemma BoundedShrinks(active: map<Key, Token>, key: Key, maxUpload: nat, maxDownload: nat)
    requires Bounded(active, maxUpload, maxDownload)
    ensures Bounded(active - {key}, maxUpload, maxDownload)
  {
    CountShrinks(active, key, Upload);
    CountShrinks(active, key, Download);
  }

  // ---- the start loop ----

  /**
   Between two keys of a pass: `rest` is still to be examined, `s.queued` has been put back.
   Like `Core`, but a group may also still be in `rest`.
   */
  ghost predicate InPass(s: Sched, rest: seq<Key>) {
    && NoDup(rest) && Elems(rest) !! s.queuedSet
    && QueueMirror(s.queued, s.queuedSet) && WorkConserving(s)
    && Phases(s.groups.Keys, s.queuedSet + Elems(rest), s.active.Keys, s.pausedSet)
    && Identity(s.groups, s.taskIdToDedupe)
    && Tokens(s.groups, s.active, s.pausedSet, s.cancelled, s.spawned)
    && Bounded(s.active, s.maxUpload, s.maxDownload)
  }

  /** What a pass needs to know about the queue when its next key is dropped, put back or started. */
  lemma NextKey(s: Sched, rest: seq<Key>)
    requires rest != [] && InPass(s, rest)
    ensures NoDup(rest[1..]) && Elems(rest[1..]) !! s.queuedSet && rest[0] !in Elems(rest[1..])
    ensures rest[0] !in s.queuedSet && rest[0] !in s.active && rest[0] !in s.pausedSet
    ensures QueueMirror(s.queued + [rest[0]], s.queuedSet + {rest[0]})
    ensures Phases(s.groups.Keys, s.queuedSet + {rest[0]} + Elems(rest[1..]), s.active.Keys, s.pausedSet)
    ensures rest[0] !in s.groups ==> Phases(s.groups.Keys, s.queuedSet + Elems(rest[1..]), s.active.Keys, s.pausedSet)
    ensures rest[0] in s.groups ==>
              Phases(s.groups.Keys, s.queuedSet + Elems(rest[1..]), s.active.Keys + {rest[0]}, s.pausedSet)
  {
    hide Identity, Tokens, Bounded, WorkConserving;
    NoDupTail(rest);
    assert rest[0] in Elems(rest);
    assert s.queuedSet + {rest[0]} + Elems(rest[1..]) == s.queuedSet + Elems(rest);
    PushKeepsMirror(s.queued, s.queuedSet, rest[0]);
  }

  lemma ExamineKeepsPass(s: Sched, rest: seq<Key>)
    requires rest != [] && InPass(s, rest)
    ensures InPass(s.Examine(rest[0]), rest[1..])
  {
    hide CountIn, Identity, Tokens, Bounded, QueueMirror, Phases, NoDup, Elems;
    NextKey(s, rest);
    if rest[0] in s.groups && s.CanStart(rest[0].dir) {
      StartKeepsPass(s, rest);
    }
  }

  lemma StartKeepsTokens(s: Sched, key: Key)
    requires Tokens(s.groups, s.active, s.pausedSet, s.cancelled, s.spawned)
    requires key in s.groups && key !in s.active && key !in s.pausedSet
    ensures Tokens(s.groups, s.Start(key).active, s.pausedSet, s.cancelled, s.Start(key).spawned)
  {}

  lemma StartKeepsCounts(s: Sched, key: Key)
    requires Bounded(s.active, s.maxUpload, s.maxDownload) && WorkConserving(s)
    requires key in s.groups && key !in s.active && s.CanStart(key.dir)
    ensures Bounded(s.Start(key).active, s.maxUpload, s.maxDownload) && WorkConserving(s.Start(key))
  {
    CountGrows(s.active, key, |s.spawned|, Upload);
    CountGrows(s.active, key, |s.spawned|, Download);
  }

  lemma StartKeepsPass(s: Sched, rest: seq<Key>)
    requires rest != [] && InPass(s, rest) && rest[0] in s.groups && s.CanStart(rest[0].dir)
    ensures InPass(s.Start(rest[0]), rest[1..])
  {
    hide CountIn, Identity, Tokens, QueueMirror, Bounded, WorkConserving, Phases, NoDup, Elems;
    var key := rest[0];
    NextKey(s, rest);
    StartKeepsCounts(s, key);
    StartKeepsTokens(s, key);
    assert s.Start(key).active.Keys == s.active.Keys + {key};
  }

  lemma {:induction false} ExamineAllKeepsPass(s: Sched, rest: seq<Key>)
    requires InPass(s, rest)
    ensures InPass(s.ExamineAll(rest), [])
    decreases |rest|
  {
    if rest == [] {
    } else {
      ExamineKeepsPass(s, rest);
      ExamineAllKeepsPass(s.Examine(rest[0]), rest[1..]);
    }
  }

  lemma CoreStartsPass(s: Sched)
    requires Core(s)
    ensures InPass(s.(queued := [], queuedSet := {}), s.queued)
  {
    hide Identity, Tokens, Bounded;
    assert {} + Elems(s.queued) == s.queuedSet;
  }

  lemma EndOfPass(s: Sched)
    requires InPass(s, [])
    ensures Top(s)
  {
    hide Identity, Tokens, Bounded, QueueMirror, WorkConserving, NoDup;
    assert s.queuedSet + Elems<Key>([]) == s.queuedSet;
  }

  lemma TryStartReachesTop(s: Sched)
    requires Core(s)
    ensures Top(s.TryStart())
  {
    hide Top, Core, InPass;
    CoreStartsPass(s);
    ExamineAllKeepsPass(s.(queued := [], queuedSet := {}), s.queued);
    EndOfPass(s.TryStart());
  }

  // ---- the building blocks of commands and events ----

  /** Ending a group removes exactly its own id. */
  lemma EndKeepsIdentity(groups: map<Key, GroupState>, ids: map<TaskId, Key>, key: Key)
    requires Identity(groups, ids) && key in groups
    ensures Identity(groups - {key}, ids - {groups[key].leader.taskId})
  {}

  /** A fresh id for a fresh key extends the bijection. */
  lemma AddKeepsIdentity(groups: map<Key, GroupState>, ids: map<TaskId, Key>, task: InnerTask)
    requires Identity(groups, ids) && task.taskId !in ids && task.DedupeKey() !in groups
    ensures Identity(groups[task.DedupeKey() := GroupState(task, task)], ids[task.taskId := task.DedupeKey()])
  {}

  lemma AddKeepsTokens(groups: map<Key, GroupState>, active: map<Key, Token>, paused: set<Key>,
                       cancelled: set<Token>, spawned: seq<Run>, key: Key, g: GroupState)
    requires Tokens(groups, active, paused, cancelled, spawned) && key !in groups
    ensures Tokens(groups[key := g], active, paused, cancelled, spawned)
  {}

  /** Forgetting a key everywhere but in the queue. */
  lemma ForgetKeepsPhases(groups: set<Key>, queued: set<Key>, active: set<Key>, paused: set<Key>, key: Key)
    requires Phases(groups, queued, active, paused)
    ensures Phases(groups - {key}, queued, active - {key}, paused - {key})
    ensures Phases(groups - {key}, queued - {key}, active - {key}, paused - {key})
  {}

  /** Stopping a key's own worker leaves every other key's token as it was. */
  lemma ForgetKeepsTokens(groups: map<Key, GroupState>, active: map<Key, Token>, paused: set<Key>,
                          cancelled: set<Token>, spawned: seq<Run>, key: Key)
    requires Tokens(groups, active, paused, cancelled, spawned)
    ensures Tokens(groups - {key}, active - {key}, paused - {key}, cancelled, spawned)
    ensures key in active ==>
              Tokens(groups - {key}, active - {key}, paused - {key}, cancelled + {active[key]}, spawned)
  {}

  lemma PauseKeepsTokens(groups: map<Key, GroupState>, active: map<Key, Token>, paused: set<Key>,
                         cancelled: set<Token>, spawned: seq<Run>, key: Key)
    requires Tokens(groups, active, paused, cancelled, spawned)
    ensures key in active ==> Tokens(groups, active, paused + {key}, cancelled + {active[key]}, spawned)
    ensures key !in active ==> Tokens(groups, active, paused + {key}, cancelled, spawned)
  {}

  lemma UnpauseKeepsTokens(groups: map<Key, GroupState>, active: map<Key, Token>, paused: set<Key>,
                           cancelled: set<Token>, spawned: seq<Run>, key: Key)
    requires Tokens(groups, active, paused, cancelled, spawned)
    ensures key !in active ==> Tokens(groups, active, paused - {key}, cancelled, spawned)
  {}

  lemma AddKeepsPhases(groups: set<Key>, queued: set<Key>, active: set<Key>, paused: set<Key>, key: Key)
    requires Phases(groups, queued, active, paused) && key !in groups
    ensures Phases(groups + {key}, queued + {key}, active, paused) && key !in active
  {}

  lemma UnpauseKeepsPhases(groups: set<Key>, queued: set<Key>, active: set<Key>, paused: set<Key>, key: Key)
    requires Phases(groups, queued, active, paused) && key in paused && key !in active
    ensures Phases(groups, queued + {key}, active, paused - {key}) && key !in queued && key in groups
  {}

  lemma PauseKeepsPhases(groups: set<Key>, queued: set<Key>, active: set<Key>, paused: set<Key>, key: Key)
    requires Phases(groups, queued, active, paused) && key in groups
    ensures Phases(groups, queued - {key}, active, paused + {key})
  {}

  lemma UnqueueKeepsMirror(s: Sched, key: Key)
    requires QueueMirror(s.queued, s.queuedSet)
    ensures QueueMirror(s.Unqueue(key).queued, s.queuedSet - {key})
  {
    KeepNoDup(s.queued, Elems(s.queued) - {key});
    KeepSet(s.queued, Elems(s.queued) - {key});
  }

  lemma PushKeepsMirror(queued: seq<Key>, queuedSet: set<Key>, key: Key)
    requires QueueMirror(queued, queuedSet) && key !in queuedSet
    ensures QueueMirror(queued + [key], queuedSet + {key})
  {
    NoDupSnoc(queued, key);
  }

  // ---- commands ----

  lemma AdmitKeepsCore(s: Sched, task: InnerTask)
    requires Core(s) && task.taskId !in s.taskIdToDedupe && task.DedupeKey() !in s.groups
    ensures Core(s.Admit(task))
  {
    hide QueueMirror, Identity, Bounded, Tokens, Phases;
    var key := task.DedupeKey();
    if key !in s.queuedSet {
      PushKeepsMirror(s.queued, s.queuedSet, key);
    }
    AddKeepsIdentity(s.groups, s.taskIdToDedupe, task);
    AddKeepsTokens(s.groups, s.active, s.pausedSet, s.cancelled, s.spawned, key, GroupState(task, task));
    AddKeepsPhases(s.groups.Keys, s.queuedSet, s.active.Keys, s.pausedSet, key);
    assert s.groups[key := GroupState(task, task)].Keys == s.groups.Keys + {key};
    assert key in s.queuedSet ==> s.queuedSet + {key} == s.queuedSet;
  }

  lemma PauseGroupKeepsCore(s: Sched, key: Key)
    requires Core(s) && key in s.groups
    ensures Core(s.PauseGroup(key))
  {
    hide QueueMirror, Identity, Tokens, Bounded, Phases;
    UnqueueKeepsMirror(s, key);
    PauseKeepsTokens(s.groups, s.active, s.pausedSet, s.cancelled, s.spawned, key);
    PauseKeepsPhases(s.groups.Keys, s.queuedSet, s.active.Keys, s.pausedSet, key);
  }

  lemma ResumeGroupKeepsCore(s: Sched, key: Key)
    requires Core(s)
    ensures Core(s.ResumeGroup(key).0)
  {
    hide QueueMirror, Identity, Bounded, Tokens, Phases;
    if key in s.pausedSet && key !in s.active {
      UnpauseKeepsPhases(s.groups.Keys, s.queuedSet, s.active.Keys, s.pausedSet, key);
      PushKeepsMirror(s.queued, s.queuedSet, key);
      UnpauseKeepsTokens(s.groups, s.active, s.pausedSet, s.cancelled, s.spawned, key);
    }
  }

  lemma CancelGroupKeepsCore(s: Sched, key: Key)
    requires Core(s)
    ensures Core(s.CancelGroup(key))
  {
    hide QueueMirror, Identity, Tokens, Bounded, Phases;
    UnqueueKeepsMirror(s, key);
    ForgetKeepsCore(s, key);
  }

  /** The building blocks, put together for a key that may or may not have a group. */
  lemma ForgetKeepsCore(s: Sched, key: Key)
    requires Core(s)
    ensures Bounded(s.active - {key}, s.maxUpload, s.maxDownload)
    ensures Phases(s.groups.Keys - {key}, s.queuedSet, s.active.Keys - {key}, s.pausedSet - {key})
    ensures Phases(s.groups.Keys - {key}, s.queuedSet - {key}, s.active.Keys - {key}, s.pausedSet - {key})
    ensures Tokens(s.groups - {key}, s.active - {key}, s.pausedSet - {key}, s.cancelled, s.spawned)
    ensures key in s.active ==>
              Tokens(s.groups - {key}, s.active - {key}, s.pausedSet - {key}, s.cancelled + {s.active[key]}, s.spawned)
    ensures key in s.groups ==> Identity(s.groups - {key}, s.taskIdToDedupe - {s.groups[key].leader.taskId})
    ensures key !in s.groups ==> s.groups - {key} == s.groups && key !in s.active && key !in s.pausedSet
    ensures (s.groups - {key}).Keys == s.groups.Keys - {key} && (s.active - {key}).Keys == s.active.Keys - {key}
  {
    hide QueueMirror, Identity, Tokens, Bounded;
    BoundedShrinks(s.active, key, s.maxUpload, s.maxDownload);
    ForgetKeepsPhases(s.groups.Keys, s.queuedSet, s.active.Keys, s.pausedSet, key);
    ForgetKeepsTokens(s.groups, s.active, s.pausedSet, s.cancelled, s.spawned, key);
    if key in s.groups {
      EndKeepsIdentity(s.groups, s.taskIdToDedupe, key);
    }
  }

  lemma HandleKeepsCore(s: Sched, e: WorkerEvent)
    requires Core(s)
    ensures Core(s.Handle(e))
  {
    hide QueueMirror, Identity, Tokens, Bounded, Phases;
    ForgetKeepsCore(s, e.key);
    if e.key in s.pausedSet {
      SettleKeepsCore(s, e.key);
    } else {
      assert s.pausedSet - {e.key} == s.pausedSet;
    }
  }

  /** A paused worker that has stopped: the group stays, ready to be resumed. */
  lemma SettleKeepsCore(s: Sched, key: Key)
    requires Core(s) && key in s.pausedSet
    ensures Phases(s.groups.Keys, s.queuedSet, s.active.Keys - {key}, s.pausedSet)
    ensures Tokens(s.groups, s.active - {key}, s.pausedSet, s.cancelled, s.spawned)
  {
    hide QueueMirror, Identity, Bounded;
  }

  lemma {:induction false} EmitPausedOnlyEmits(s: Sched, keys: seq<Key>)
    ensures s.EmitPaused(keys) == s.(emitted := s.EmitPaused(keys).emitted)
    decreases |keys|
  {
    if keys != [] {
      EmitPausedOnlyEmits(s.EmitIfLive(keys[0], Status.Paused), keys[1..]);
    }
  }

  lemma CloseKeepsTop(s: Sched, order: seq<Key>)
    requires Core(s)
    ensures Top(s.Close(order))
  {
    NewTop(s.maxUpload, s.maxDownload);
    EmitPausedOnlyEmits(s.(cancelled := s.cancelled + s.active.Values), order);
    ClosedTokens(s);
  }

  lemma ClosedTokens(s: Sched)
    requires Core(s)
    ensures Tokens(map[], map[], {}, s.cancelled + s.active.Values, s.spawned)
  {}
}
