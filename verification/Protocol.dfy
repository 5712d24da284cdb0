/**
 Who owns what while workers run: the part of the system invariant that the scheduler's own
 transitions must keep. `und` is the set of undrained runs: workers that are not over, or whose
 terminal event has not been handled yet.
 */
module Protocol {
  import opened Basics
  import opened Sequences
  import opened SchedulerState
  import opened Invariants
  import opened Runs
  import StartOrder

  /**
   Every undrained run either is the one its key's `active` entry stands for, or has lost its group
   (an orphan); every `active` entry stands for an undrained run; no key has two undrained runs.
   */
  ghost predicate OneWorker(groups: map<Key, GroupState>, active: map<Key, Token>, spawned: seq<Run>, und: set<Token>) {
    && (forall r :: r in und ==> r < |spawned| && OwnsOrOrphan(groups, active, spawned[r].key, r))
    && (forall k :: k in active ==> active[k] in und && active[k] < |spawned| && spawned[active[k]].key == k)
    && (forall r, r' :: r in und && r' in und && r != r' ==> spawned[r].key != spawned[r'].key)
  }

  ghost predicate OwnsOrOrphan(groups: map<Key, GroupState>, active: map<Key, Token>, key: Key, r: Token) {
    (key in active && active[key] == r) || key !in groups
  }

  /** Two downloads with different keys never have the same local file. */
  predicate Apart(t: InnerTask, t': InnerTask) {
    IsDownload(t) && IsDownload(t') && t.DedupeKey() != t'.DedupeKey() ==> t.filePath != t'.filePath
  }

  /** Live groups and undrained runs of different downloads have different local files. */
  ghost predicate SeparateFiles(groups: map<Key, GroupState>, spawned: seq<Run>, und: set<Token>) {
    && (forall k, k' :: k in groups && k' in groups ==> Apart(groups[k].leader, groups[k'].leader))
    && (forall k, r :: k in groups && r in und && r < |spawned| ==> Apart(groups[k].leader, spawned[r].task))
    && (forall r, r' :: r in und && r' in und && r < |spawned| && r' < |spawned| ==>
          Apart(spawned[r].task, spawned[r'].task))
  }

  ghost predicate RunKeys(spawned: seq<Run>) {
    forall r :: 0 <= r < |spawned| ==> spawned[r].key == spawned[r].task.DedupeKey()
  }

  ghost predicate Ordered(s: Sched, und: set<Token>) {
    && OneWorker(s.groups, s.active, s.spawned, und)
    && SeparateFiles(s.groups, s.spawned, und)
    && RunKeys(s.spawned)
  }

  // ---- removing things ----

  /** A group ends (its worker, if any, becomes an orphan), or was not there. */
  lemma ForgetKeepsOneWorker(groups: map<Key, GroupState>, active: map<Key, Token>, spawned: seq<Run>,
                             und: set<Token>, key: Key)
    requires OneWorker(groups, active, spawned, und)
    ensures OneWorker(groups - {key}, active - {key}, spawned, und)
  {}

  /** The terminal event of run `r` is handled: its key leaves `active`, its group goes or stays. */
  lemma DrainKeepsOneWorker(groups: map<Key, GroupState>, active: map<Key, Token>, spawned: seq<Run>,
                            und: set<Token>, r: Token)
    requires OneWorker(groups, active, spawned, und) && r in und
    ensures OneWorker(groups - {spawned[r].key}, active - {spawned[r].key}, spawned, und - {r})
    ensures OneWorker(groups, active - {spawned[r].key}, spawned, und - {r})
  {}

  lemma ForgetKeepsSeparate(groups: map<Key, GroupState>, spawned: seq<Run>, und: set<Token>, key: Key,
                            und': set<Token>)
    requires SeparateFiles(groups, spawned, und) && und' <= und
    ensures SeparateFiles(groups - {key}, spawned, und') && SeparateFiles(groups, spawned, und')
  {}

  // ---- adding things ----

  /** A key may be enqueued when no undrained run of it is left and its file is nobody else's. */
  ghost predicate RoomFor(s: Sched, und: set<Token>, task: InnerTask) {
    && (forall r :: r in und && r < |s.spawned| ==>
          s.spawned[r].key != task.DedupeKey() && Apart(task, s.spawned[r].task))
    && (forall k :: k in s.groups ==> Apart(task, s.groups[k].leader))
  }

  lemma AdmitKeepsProtocol(s: Sched, und: set<Token>, task: InnerTask)
    requires Ordered(s, und) && RoomFor(s, und, task)
    ensures OneWorker(s.groups[task.DedupeKey() := GroupState(task, task)], s.active, s.spawned, und)
    ensures SeparateFiles(s.groups[task.DedupeKey() := GroupState(task, task)], s.spawned, und)
  {}

  lemma StartKeepsProtocol(s: Sched, und: set<Token>, key: Key)
    requires Ordered(s, und) && key in s.groups && key !in s.active && s.groups[key].leader.DedupeKey() == key
    ensures Ordered(s.Start(key), und + {|s.spawned|})
  {
    StartKeepsOneWorker(s.groups, s.active, s.spawned, und, key, Run(key, s.groups[key].leader, s.Offset(key)));
    StartKeepsSeparate(s.groups, s.spawned, und, key, Run(key, s.groups[key].leader, s.Offset(key)));
    hide OneWorker, SeparateFiles;
  }

  lemma StartKeepsOneWorker(groups: map<Key, GroupState>, active: map<Key, Token>, spawned: seq<Run>, und: set<Token>,
                            key: Key, run: Run)
    requires OneWorker(groups, active, spawned, und) && key in groups && key !in active && run.key == key
    ensures OneWorker(groups, active[key := |spawned|], spawned + [run], und + {|spawned|})
  {}

  lemma StartKeepsSeparate(groups: map<Key, GroupState>, spawned: seq<Run>, und: set<Token>, key: Key, run: Run)
    requires SeparateFiles(groups, spawned, und) && key in groups && run.task == groups[key].leader
    requires forall r :: r in und ==> r < |spawned|
    ensures SeparateFiles(groups, spawned + [run], und + {|spawned|})
  {}

  // ---- the start loop ----

  predicate IsFresh(from: nat, r: nat, to: nat) {
    from <= r < to
  }

  /** The runs numbered `from` to `to - 1`. */
  function FreshRuns(from: nat, to: nat): set<Token> {
    set r: nat {:trigger IsFresh(from, r, to)} | from <= r < to && IsFresh(from, r, to)
  }

  lemma {:induction false} PassKeepsProtocol(s: Sched, rest: seq<Key>, und: set<Token>)
    requires InPass(s, rest) && Ordered(s, und)
    ensures s.spawned <= s.ExamineAll(rest).spawned
    ensures Ordered(s.ExamineAll(rest), und + FreshRuns(|s.spawned|, |s.ExamineAll(rest).spawned|))
    decreases |rest|
  {
    hide InPass, Ordered;
    if rest == [] {
      assert und + FreshRuns(|s.spawned|, |s.spawned|) == und;
    } else {
      var s1 := s.Examine(rest[0]);
      StartOrder.PassHead(s, rest, Upload);
      ExamineKeepsPass(s, rest);
      ExamineKeepsProtocol(s, rest, und);
      PassKeepsProtocol(s1, rest[1..], und + FreshRuns(|s.spawned|, |s1.spawned|));
      var s2 := s.ExamineAll(rest);
      var m, n1, n2 := |s.spawned|, |s1.spawned|, |s2.spawned|;
      assert und + FreshRuns(m, n1) + FreshRuns(n1, n2) == und + FreshRuns(m, n2);
    }
  }

  lemma ExamineKeepsProtocol(s: Sched, rest: seq<Key>, und: set<Token>)
    requires rest != [] && rest[0] !in s.active && InPass(s, rest) && Ordered(s, und)
    ensures var s1 := s.Examine(rest[0]);
            s.spawned <= s1.spawned && Ordered(s1, und + FreshRuns(|s.spawned|, |s1.spawned|))
  {
    hide Ordered, InPass, CountIn;
    var key := rest[0];
    if key in s.groups && s.CanStart(key.dir) {
      LiveGroupHasItsKey(s, rest, key);
      StartKeepsProtocol(s, und, key);
      assert FreshRuns(|s.spawned|, |s.spawned| + 1) == {|s.spawned|};
    } else {
      assert und + FreshRuns(|s.spawned|, |s.spawned|) == und;
      SameProtocol(s, s.Examine(key), und);
    }
  }

  lemma LiveGroupHasItsKey(s: Sched, rest: seq<Key>, key: Key)
    requires InPass(s, rest) && key in s.groups
    ensures s.groups[key].leader.DedupeKey() == key
  {}

  lemma SameProtocol(s: Sched, s': Sched, und: set<Token>)
    requires Ordered(s, und) && s'.groups == s.groups && s'.active == s.active && s'.spawned == s.spawned
    ensures Ordered(s', und)
  {}

  lemma TryStartKeepsProtocol(s: Sched, und: set<Token>)
    requires Core(s) && Ordered(s, und)
    ensures s.spawned <= s.TryStart().spawned
    ensures Ordered(s.TryStart(), und + FreshRuns(|s.spawned|, |s.TryStart().spawned|))
  {
    hide Core, InPass, Ordered;
    CoreStartsPass(s);
    SameProtocol(s, s.(queued := [], queuedSet := {}), und);
    PassKeepsProtocol(s.(queued := [], queuedSet := {}), s.queued, und);
  }

  ghost predicate StartedFromGroups(groups: map<Key, GroupState>, spawned: seq<Run>, from: nat) {
    forall r :: from <= r < |spawned| ==> spawned[r].key in groups && spawned[r].task == groups[spawned[r].key].leader
  }

  /** A pass starts workers only for leaders of live groups, and changes no group, token or offset. */
  lemma {:induction false} PassStartsLeaders(s: Sched, rest: seq<Key>)
    ensures var s' := s.ExamineAll(rest);
            && s.spawned <= s'.spawned && StartedFromGroups(s.groups, s'.spawned, |s.spawned|)
            && s'.groups == s.groups && s'.cancelled == s.cancelled && s'.offsets == s.offsets
    decreases |rest|
  {
    hide CountIn;
    if rest != [] {
      PassStartsLeaders(s.Examine(rest[0]), rest[1..]);
    }
  }

  /** A new worker is told to begin at the remembered offset. */
  ghost predicate StartedFromOffsets(offsets: map<Key, u64>, spawned: seq<Run>, from: nat) {
    forall r :: from <= r < |spawned| ==>
      spawned[r].start == if spawned[r].key in offsets then offsets[spawned[r].key] else 0
  }

  lemma {:induction false} PassStartsFrom(s: Sched, rest: seq<Key>)
    ensures StartedFromOffsets(s.offsets, s.ExamineAll(rest).spawned, |s.spawned|)
    decreases |rest|
  {
    hide CountIn;
    if rest != [] {
      PassStartsFrom(s.Examine(rest[0]), rest[1..]);
      PassStartsLeaders(s.Examine(rest[0]), rest[1..]);
    }
  }

  lemma TryStartStartsLeaders(s: Sched)
    ensures var s' := s.TryStart();
            && s.spawned <= s'.spawned && StartedFromGroups(s.groups, s'.spawned, |s.spawned|)
            && s'.groups == s.groups && s'.cancelled == s.cancelled && s'.offsets == s.offsets
  {
    hide StartedFromGroups;
    PassStartsLeaders(s.(queued := [], queuedSet := {}), s.queued);
  }

  // ---- messages ----

  /** The caller's side of the protocol: an accepted enqueue finds room. */
  ghost predicate Careful(s: Sched, und: set<Token>, a: Action) {
    a.Enqueue? && a.task.DedupeKey() !in s.groups ==> RoomFor(s, und, a.task)
  }

  /** A command that is not a worker event. */
  lemma CommandKeepsProtocol(s: Sched, und: set<Token>, a: Action)
    requires Core(s) && Ordered(s, und) && Careful(s, und, a) && !a.Event?
    ensures Ordered(Body(s, a), und) && Body(s, a).spawned == s.spawned && s.cancelled <= Body(s, a).cancelled
    ensures forall k :: k in Body(s, a).groups ==>
              (k in s.groups && Body(s, a).groups[k] == s.groups[k])
              || (a.Enqueue? && k == a.task.DedupeKey() && k !in s.groups && Body(s, a).groups[k].leader == a.task)
  {
    hide Core, OneWorker, SeparateFiles, RunKeys;
    hide Sched.PauseGroup, Sched.ResumeGroup, Sched.CancelGroup, Sched.Close, Sched.Admit;
    match a
    case Enqueue(task) =>
      if task.DedupeKey() !in s.groups {
        AdmitKeepsProtocol(s, und, task);
        AdmitFields(s, task);
      }
    case Pause(id) =>
      if id in s.taskIdToDedupe {
        PauseFields(s, s.taskIdToDedupe[id]);
      }
    case Resume(id) =>
      if id in s.taskIdToDedupe {
        ResumeFields(s, s.taskIdToDedupe[id]);
      }
    case Cancel(id) =>
      if id in s.taskIdToDedupe {
        CancelFields(s, s.taskIdToDedupe[id]);
        ForgetKeepsOneWorker(s.groups, s.active, s.spawned, und, s.taskIdToDedupe[id]);
        ForgetKeepsSeparate(s.groups, s.spawned, und, s.taskIdToDedupe[id], und);
      }
    case Close(order) =>
      CloseFields(s, order);
      EmptyKeepsProtocol(s, und);
  }

  lemma AdmitFields(s: Sched, task: InnerTask)
    ensures var s' := s.Admit(task);
            && s'.groups == s.groups[task.DedupeKey() := GroupState(task, task)]
            && s'.active == s.active && s'.spawned == s.spawned
            && s'.cancelled == s.cancelled && s'.offsets == s.offsets
  {
    hide CountIn, Sched.Offset, InnerTask.DedupeKey;
  }

  lemma PauseFields(s: Sched, key: Key)
    ensures var s' := s.PauseGroup(key);
            && s'.groups == s.groups && s'.active == s.active && s'.spawned == s.spawned
            && s.cancelled <= s'.cancelled && s'.offsets == s.offsets
  {
    hide Keep, Elems, CountIn, Sched.EmitIfLive;
    var s1 := s.Stop(key).Unqueue(key);
    EmitIfLiveOnlyEmits(s1.(pausedSet := s1.pausedSet + {key}), key, Status.Paused);
  }

  lemma EmitIfLiveOnlyEmits(s: Sched, key: Key, status: Status)
    ensures s.EmitIfLive(key, status) == s.(emitted := s.EmitIfLive(key, status).emitted)
  {
    hide CountIn, Sched.Offset;
  }

  lemma ResumeFields(s: Sched, key: Key)
    ensures var s' := s.ResumeGroup(key).0;
            && s'.groups == s.groups && s'.active == s.active && s'.spawned == s.spawned
            && s'.cancelled == s.cancelled && s'.offsets == s.offsets
  {
    hide Keep, Elems, CountIn;
  }

  lemma CancelFields(s: Sched, key: Key)
    requires Core(s)
    ensures var s' := s.CancelGroup(key);
            s'.groups == s.groups - {key} && s'.active == s.active - {key} && s'.spawned == s.spawned
            && s.cancelled <= s'.cancelled && s'.offsets == s.offsets
  {
    hide QueueMirror, Identity, Tokens, Bounded, Phases;
    if key !in s.groups {
      assert s.groups - {key} == s.groups;
    }
  }

  lemma CloseFields(s: Sched, order: seq<Key>)
    ensures var s' := s.Close(order);
            && s'.groups == map[] && s'.active == map[] && s'.offsets == map[]
            && s'.spawned == s.spawned && s.cancelled <= s'.cancelled
  {
    EmitPausedOnlyEmits(s.(cancelled := s.cancelled + s.active.Values), order);
  }

  lemma EmptyKeepsProtocol(s: Sched, und: set<Token>)
    requires Ordered(s, und)
    ensures OneWorker(map[], map[], s.spawned, und) && SeparateFiles(map[], s.spawned, und)
  {}

  /** A progress report of any run; the terminal event of undrained run `r`. */
  lemma EventKeepsProtocol(s: Sched, und: set<Token>, r: Token, e: WorkerEvent)
    requires Core(s) && Ordered(s, und) && r in und && e.key == s.spawned[r].key
    ensures Body(s, Event(e)).spawned == s.spawned && Body(s, Event(e)).cancelled == s.cancelled
    ensures forall k :: k in Body(s, Event(e)).groups ==> k in s.groups && Body(s, Event(e)).groups[k] == s.groups[k]
    ensures Ordered(Body(s, Event(e)), if e.Progress? then und else und - {r})
  {
    hide OneWorker, SeparateFiles, RunKeys, Core, Sched.Handle;
    HandleFields(s, e);
    if !e.Progress? {
      DrainKeepsOneWorker(s.groups, s.active, s.spawned, und, r);
      ForgetKeepsSeparate(s.groups, s.spawned, und, e.key, und - {r});
    }
  }

  lemma HandleFields(s: Sched, e: WorkerEvent)
    requires Core(s)
    ensures var s' := s.Handle(e);
            && s'.spawned == s.spawned && s'.cancelled == s.cancelled
            && s'.active == (if e.Progress? then s.active else s.active - {e.key})
            && s'.groups == (if e.Progress? || (e.Canceled? && e.key in s.pausedSet) then s.groups
                             else s.groups - {e.key})
            && s'.offsets == (if e.Progress? then s.offsets[e.key := e.nextOffset]
                              else if e.Canceled? && e.key in s.pausedSet then s.offsets else s.offsets - {e.key})
  {
    hide QueueMirror, Identity, Tokens, Bounded, Phases;
    if e.key !in s.groups {
      assert s.groups - {e.key} == s.groups;
    }
  }
}
