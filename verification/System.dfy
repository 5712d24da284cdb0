/**
 The whole system: the scheduler, every worker it has started, the events on their way to it, and the
 local files. Any interleaving of commands, deliveries and worker steps is a run.
 */
module System {
  import opened Basics
  import opened SchedulerState
  import opened Invariants
  import opened Runs
  import opened HttpClient
  import opened Worker
  import opened WorkerSafety
  import opened Protocol

  /**
   Run `r` of `sched.spawned` has worker `workers[r]`; it has sent `logs[r]`, of which `handled[r]` events are
   handled.
   */
  datatype Sys = Sys(sched: Sched, workers: seq<Worker>, logs: seq<seq<WorkerEvent>>, handled: seq<nat>,
                     files: map<string, seq<byte>>)

  datatype Step =
    | Command(a: Action)
    | Deliver(r: nat)
    | Work(r: nat, i: Input)

  /** What every URL serves; it does not change. */
  type Resources = string -> seq<byte>

  function FileAt(files: map<string, seq<byte>>, path: string): Option<seq<byte>> {
    if path in files then Some(files[path]) else None
  }

  function OnDisk(files: map<string, seq<byte>>, path: string): seq<byte> {
    if path in files then files[path] else []
  }

  function WorkerOf(run: Run): Worker {
    NewWorker(run.key, run.task, run.start)
  }

  /** A new worker for every run that the scheduler has started meanwhile. */
  function Spawn(sys: Sys, s: Sched): Sys {
    var n := if |s.spawned| < |sys.workers| then 0 else |s.spawned| - |sys.workers|;
    var m := |sys.workers|;
    sys.(sched := s,
         workers := sys.workers + seq(n, i requires 0 <= i < n => WorkerOf(s.spawned[m + i])),
         logs := sys.logs + seq(n, i => []),
         handled := sys.handled + seq(n, i => 0))
  }

  // ---- what may happen ----

  predicate Undrained(sys: Sys, r: nat)
    requires r < |sys.workers| == |sys.logs| == |sys.handled|
  {
    !sys.workers[r].phase.Over? || sys.handled[r] < |sys.logs[r]|
  }

  ghost predicate Shape(sys: Sys) {
    && |sys.workers| == |sys.logs| == |sys.handled| == |sys.sched.spawned|
    && forall r :: 0 <= r < |sys.workers| ==>
         sys.workers[r].key == sys.sched.spawned[r].key && sys.workers[r].task == sys.sched.spawned[r].task
  }

  ghost function Und(sys: Sys): set<Token>
    requires Shape(sys)
  {
    set r: nat | r < |sys.workers| && Undrained(sys, r)
  }

  /** The local file of a download is absent or a beginning of what its URL serves. */
  ghost predicate Ready(files: map<string, seq<byte>>, t: InnerTask, remote: Resources) {
    && 1 <= t.chunkSize
    && (IsDownload(t) ==> OnDisk(files, t.filePath) <= remote(t.url))
  }

  /**
   What can happen at all: commands with fresh task ids, deliveries in the order of sending, and what a worker
   can observe of its token and of honest servers.
   */
  ghost predicate Possible(sys: Sys, step: Step, remote: Resources)
    requires Shape(sys)
  {
    match step
    case Command(a) => !a.Event? && Allowed(sys.sched, a)
    case Deliver(r) =>
      r < |sys.workers| && sys.handled[r] < |sys.logs[r]| && !sys.sched.closed
    case Work(r, i) =>
      && r < |sys.workers| && Fits(sys.workers[r], i) && Sees(i, r in sys.sched.cancelled)
      && HonestInput(i, remote(sys.workers[r].task.url))
  }

  /**
   The caller's side: a task that is accepted is ready, its key has no undrained run left (in particular no
   orphaned one) and its file belongs to nobody else. A rejected duplicate may be anything.
   */
  ghost predicate Considerate(sys: Sys, step: Step, remote: Resources)
    requires Shape(sys)
  {
    step.Command? ==>
      && Careful(sys.sched, Und(sys), step.a)
      && (step.a.Enqueue? && step.a.task.DedupeKey() !in sys.sched.groups ==> Ready(sys.files, step.a.task, remote))
  }

  ghost predicate CanDo(sys: Sys, step: Step, remote: Resources)
    requires Shape(sys)
  {
    Possible(sys, step, remote) && Considerate(sys, step, remote)
  }

  function AfterWork(sys: Sys, r: nat, i: Input): Sys
    requires r < |sys.workers| == |sys.logs| && Fits(sys.workers[r], i)
  {
    var w := sys.workers[r];
    var path := w.task.filePath;
    var (w', file', ev) := Next(w, FileAt(sys.files, path), i);
    sys.(workers := sys.workers[r := w'], logs := sys.logs[r := sys.logs[r] + ev],
         files := if file'.Some? then sys.files[path := file'.value] else sys.files)
  }

  ghost function Do(sys: Sys, step: Step, remote: Resources): Sys
    requires Shape(sys) && Possible(sys, step, remote)
  {
    match step
    case Command(a) => Spawn(sys, Apply(sys.sched, a))
    case Deliver(r) =>
      Spawn(sys.(handled := sys.handled[r := sys.handled[r] + 1]), Apply(sys.sched, Event(sys.logs[r][sys.handled[r]])))
    case Work(r, i) => AfterWork(sys, r, i)
  }

  // ---- the invariant ----

  /** What is known about one run. */
  ghost predicate RunOk(w: Worker, log: seq<WorkerEvent>, handled: nat, cancelled: bool, file: Option<seq<byte>>,
                        resource: seq<byte>) {
    && LogOk(w, log) && handled <= |log|
    && ((exists e :: e in log && e.Canceled?) ==> cancelled)
    && (!w.phase.Over? || handled < |log| ==>
          WorkerOk(w, file, resource) && CopiedOk(w, file, log, resource) && TotalsOk(w.task, log, resource))
  }

  ghost predicate RunsOk(sys: Sys, remote: Resources)
    requires Shape(sys)
  {
    forall r :: 0 <= r < |sys.workers| ==>
      RunOk(sys.workers[r], sys.logs[r], sys.handled[r], r in sys.sched.cancelled,
            FileAt(sys.files, sys.workers[r].task.filePath), remote(sys.workers[r].task.url))
  }

  ghost predicate GroupsReady(groups: map<Key, GroupState>, files: map<string, seq<byte>>, remote: Resources) {
    forall k :: k in groups ==> Ready(files, groups[k].leader, remote)
  }

  ghost predicate SysOk(sys: Sys, remote: Resources) {
    && Shape(sys) && Top(sys.sched)
    && Ordered(sys.sched, Und(sys))
    && RunsOk(sys, remote)
    && GroupsReady(sys.sched.groups, sys.files, remote)
  }

  lemma OkIsTop(sys: Sys, remote: Resources)
    requires SysOk(sys, remote)
    ensures Shape(sys) && Top(sys.sched)
  {}

  // ---- scheduler steps ----

  lemma NewWorkerOk(key: Key, task: InnerTask, start: u64, files: map<string, seq<byte>>, remote: Resources,
                    cancelled: bool)
    requires Ready(files, task, remote)
    ensures RunOk(NewWorker(key, task, start), [], 0, cancelled, FileAt(files, task.filePath), remote(task.url))
  {}

  lemma SpawnShape(sys: Sys, s: Sched)
    requires Shape(sys) && sys.sched.spawned <= s.spawned
    ensures Shape(Spawn(sys, s))
    ensures Und(Spawn(sys, s)) == Und(sys) + FreshRuns(|sys.sched.spawned|, |s.spawned|)
  {
    var sys', m := Spawn(sys, s), |sys.workers|;
    forall r | 0 <= r < |sys'.workers|
      ensures sys'.workers[r].key == s.spawned[r].key && sys'.workers[r].task == s.spawned[r].task
    {
      if r < m {
        assert sys'.workers[r] == sys.workers[r] && sys.sched.spawned[r] == s.spawned[r];
      } else {
        SpawnedWorker(sys, s, r);
      }
    }
    forall r: nat ensures r in Und(sys') <==> r in Und(sys) + FreshRuns(m, |s.spawned|) {
      if r < m {
        assert Undrained(sys', r) <==> Undrained(sys, r);
      } else if r < |sys'.workers| {
        SpawnedWorker(sys, s, r);
        assert Undrained(sys', r) && IsFresh(m, r, |s.spawned|);
      }
    }
  }

  lemma SpawnedWorker(sys: Sys, s: Sched, r: nat)
    requires Shape(sys) && |sys.workers| <= r < |s.spawned|
    ensures |Spawn(sys, s).workers| == |s.spawned|
    ensures Spawn(sys, s).workers[r] == NewWorker(s.spawned[r].key, s.spawned[r].task, s.spawned[r].start)
    ensures Spawn(sys, s).logs[r] == [] && Spawn(sys, s).handled[r] == 0
  {
    var i := r - |sys.workers|;
    assert Spawn(sys, s).workers[|sys.workers| + i] == WorkerOf(s.spawned[|sys.workers| + i]);
  }

  lemma SpawnKeepsRuns(sys: Sys, s: Sched, r: nat)
    requires Shape(sys) && r < |sys.workers|
    ensures |Spawn(sys, s).workers| == |Spawn(sys, s).logs| == |Spawn(sys, s).handled| >= |sys.workers|
    ensures Spawn(sys, s).workers[r] == sys.workers[r] && Spawn(sys, s).logs[r] == sys.logs[r]
    ensures Spawn(sys, s).handled[r] == sys.handled[r]
  {}

  lemma SpawnSched(sys: Sys, s: Sched)
    ensures Spawn(sys, s).sched == s && Spawn(sys, s).files == sys.files
  {}

  /** After a scheduler step: the old runs as before, the new ones from ready groups. */
  lemma SpawnRunsOk(sys: Sys, s: Sched, remote: Resources)
    requires Shape(sys) && RunsOk(sys, remote)
    requires sys.sched.spawned <= s.spawned && sys.sched.cancelled <= s.cancelled
    requires StartedFromGroups(s.groups, s.spawned, |sys.sched.spawned|)
    requires GroupsReady(s.groups, sys.files, remote)
    ensures Shape(Spawn(sys, s)) && RunsOk(Spawn(sys, s), remote)
  {
    hide RunOk, NewWorker;
    SpawnShape(sys, s);
    var sys' := Spawn(sys, s);
    forall r | 0 <= r < |sys'.workers|
      ensures RunOk(sys'.workers[r], sys'.logs[r], sys'.handled[r], r in s.cancelled,
                    FileAt(sys.files, sys'.workers[r].task.filePath), remote(sys'.workers[r].task.url))
    {
      if r < |sys.workers| {
        StillCancelled(sys.workers[r], sys.logs[r], sys.handled[r], r in sys.sched.cancelled, r in s.cancelled,
                       FileAt(sys.files, sys.workers[r].task.filePath), remote(sys.workers[r].task.url));
      } else {
        var run := s.spawned[r];
        SpawnedWorker(sys, s, r);
        NewWorkerOk(run.key, run.task, run.start, sys.files, remote, r in s.cancelled);
        NewWorkerTask(run.key, run.task, run.start);
      }
    }
  }

  lemma NewWorkerTask(key: Key, task: InnerTask, start: u64)
    ensures NewWorker(key, task, start).task == task
  {}

  lemma StillCancelled(w: Worker, log: seq<WorkerEvent>, handled: nat, c: bool, c': bool, file: Option<seq<byte>>,
                       resource: seq<byte>)
    requires RunOk(w, log, handled, c, file, resource) && (c ==> c')
    ensures RunOk(w, log, handled, c', file, resource)
  {}

  lemma SchedulerStepKeepsSysOk(sys: Sys, b: Sched, remote: Resources)
    requires Shape(sys) && RunsOk(sys, remote)
    requires Core(b) && Ordered(b, Und(sys)) && b.spawned == sys.sched.spawned && sys.sched.cancelled <= b.cancelled
    requires GroupsReady(b.groups, sys.files, remote)
    ensures SysOk(Spawn(sys, b.TryStart()), remote)
  {
    hide Core, Top, Ordered, RunsOk, GroupsReady, StartedFromGroups, Und;
    var s := b.TryStart();
    TryStartReachesTop(b);
    TryStartKeepsProtocol(b, Und(sys));
    TryStartStartsLeaders(b);
    SpawnShape(sys, s);
    SpawnRunsOk(sys, s, remote);
  }

  lemma SpawnNothing(sys: Sys)
    requires Shape(sys)
    ensures Spawn(sys, sys.sched) == sys
  {
    var sys' := Spawn(sys, sys.sched);
    assert sys'.workers == sys.workers && sys'.logs == sys.logs && sys'.handled == sys.handled;
  }

  lemma GroupsStayReady(groups: map<Key, GroupState>, groups': map<Key, GroupState>, files: map<string, seq<byte>>,
                        remote: Resources,
                        task: Option<InnerTask>)
    requires GroupsReady(groups, files, remote)
    requires forall k :: k in groups' ==>
               (k in groups && groups'[k] == groups[k]) || (task.Some? && groups'[k].leader == task.value)
    requires task.Some? ==> Ready(files, task.value, remote)
    ensures GroupsReady(groups', files, remote)
  {}

  lemma CommandKeepsSysOk(sys: Sys, a: Action, remote: Resources)
    requires SysOk(sys, remote) && CanDo(sys, Command(a), remote)
    ensures SysOk(Do(sys, Command(a), remote), remote)
  {
    hide Core, Top, Ordered, RunsOk, GroupsReady, Und, Careful, Ready, Allowed, Spawn;
    if sys.sched.closed {
      SpawnNothing(sys);
    } else {
      var s, b := sys.sched, Body(sys.sched, a);
      TopIsCore(s);
      CommandKeepsProtocol(s, Und(sys), a);
      BodyKeepsCore(s, a);
      ApplyIsBodyThenStart(s, a);
      var admitted := if a.Enqueue? && a.task.DedupeKey() !in s.groups then Some(a.task) else None;
      GroupsStayReady(s.groups, b.groups, sys.files, remote, admitted);
      SchedulerStepKeepsSysOk(sys, b, remote);
    }
  }

  // ---- deliveries ----

  /** Handling one more event: a run is drained exactly by its terminal event. */
  lemma DeliverUnd(sys: Sys, r: nat, remote: Resources)
    requires Shape(sys) && RunsOk(sys, remote) && r < |sys.workers| && sys.handled[r] < |sys.logs[r]|
    ensures var sys1 := sys.(handled := sys.handled[r := sys.handled[r] + 1]);
            && Shape(sys1) && RunsOk(sys1, remote)
            && r in Und(sys)
            && Und(sys1) == if sys.logs[r][sys.handled[r]].Progress? then Und(sys) else Und(sys) - {r}
  {
    hide WorkerOk, CopiedOk, TotalsOk;
    var sys1 := sys.(handled := sys.handled[r := sys.handled[r] + 1]);
    assert RunOk(sys.workers[r], sys.logs[r], sys.handled[r], r in sys.sched.cancelled,
                 FileAt(sys.files, sys.workers[r].task.filePath), remote(sys.workers[r].task.url));
    forall r': nat | r' < |sys.workers| && r' != r ensures Undrained(sys1, r') <==> Undrained(sys, r') {}
  }

  lemma DeliverKeepsSysOk(sys: Sys, r: nat, remote: Resources)
    requires SysOk(sys, remote) && CanDo(sys, Deliver(r), remote)
    ensures SysOk(Do(sys, Deliver(r), remote), remote)
  {
    hide Core, Top, Ordered, RunsOk, GroupsReady, Und, Spawn;
    var s, e := sys.sched, sys.logs[r][sys.handled[r]];
    var sys1 := sys.(handled := sys.handled[r := sys.handled[r] + 1]);
    DeliverUnd(sys, r, remote);
    EventHasRunKey(sys, r, remote);
    TopIsCore(s);
    EventKeepsProtocol(s, Und(sys), r, e);
    BodyKeepsCore(s, Event(e));
    ApplyIsBodyThenStart(s, Event(e));
    GroupsStayReady(s.groups, Body(s, Event(e)).groups, sys.files, remote, None);
    SchedulerStepKeepsSysOk(sys1, Body(s, Event(e)), remote);
  }

  lemma EventHasRunKey(sys: Sys, r: nat, remote: Resources)
    requires Shape(sys) && RunsOk(sys, remote) && r < |sys.workers| && sys.handled[r] < |sys.logs[r]|
    ensures sys.logs[r][sys.handled[r]].key == sys.sched.spawned[r].key
  {
    assert RunOk(sys.workers[r], sys.logs[r], sys.handled[r], r in sys.sched.cancelled,
                 FileAt(sys.files, sys.workers[r].task.filePath), remote(sys.workers[r].task.url));
  }

  // ---- worker steps ----

  lemma FileStays(w: Worker, file: Option<seq<byte>>, i: Input)
    requires Fits(w, i)
    ensures file.Some? ==> Next(w, file, i).1.Some?
  {
    hide Slices, UploadChunk, CheckReply, WriteAt;
    if w.task.direction == Upload {
      WhoWrites(w, file, i);
    }
  }

  lemma SeenCancels(w: Worker, file: Option<seq<byte>>, i: Input, cancelled: bool)
    requires Fits(w, i) && Sees(i, cancelled)
    ensures forall e :: e in Next(w, file, i).2 && e.Canceled? ==> cancelled
  {
    hide Prepare, TransferChunk, Slices;
  }

  lemma WorkKeepsRunOk(w: Worker, log: seq<WorkerEvent>, handled: nat, cancelled: bool, file: Option<seq<byte>>,
                       i: Input, resource: seq<byte>)
    requires RunOk(w, log, handled, cancelled, file, resource)
    requires Fits(w, i) && Sees(i, cancelled) && HonestInput(i, resource)
    ensures var (w', file', ev) := Next(w, file, i); RunOk(w', log + ev, handled, cancelled, file', resource)
  {
    hide Next, LogOk, WorkerOk, CopiedOk, TotalsOk, Sees, HonestInput;
    WhoWrites(w, file, i);
    StepKeepsTotals(w, file, i, resource, log);
    StepKeepsOk(w, file, i, resource);
    StepKeepsLog(w, file, i, resource, log);
    StepKeepsCopied(w, file, i, resource, log);
    SeenCancels(w, file, i, cancelled);
  }

  /** Runs of other files, uploads and drained runs do not notice a change of one file. */
  lemma OtherRunOk(w: Worker, log: seq<WorkerEvent>, handled: nat, cancelled: bool, file: Option<seq<byte>>,
                   file': Option<seq<byte>>, resource: seq<byte>)
    requires RunOk(w, log, handled, cancelled, file, resource)
    requires file == file' || w.task.direction == Upload || (w.phase.Over? && handled == |log|)
    ensures RunOk(w, log, handled, cancelled, file', resource)
  {
    hide LogOk;
  }

  /** The step of run `r` changes a file only if `r` is an undrained download, and then only its own. */
  lemma WorkFiles(sys: Sys, r: nat, i: Input, path: string)
    requires Shape(sys) && r < |sys.workers| && Fits(sys.workers[r], i) && sys.handled[r] <= |sys.logs[r]|
    ensures var t := sys.workers[r].task;
            var sys' := AfterWork(sys, r, i);
            && (FileAt(sys'.files, path) != FileAt(sys.files, path) ==> IsDownload(t) && path == t.filePath)
            && FileAt(sys'.files, t.filePath) == Next(sys.workers[r], FileAt(sys.files, t.filePath), i).1
            && Shape(sys') && Und(sys') == Und(sys) && r in Und(sys)
  {
    hide Next;
    var t := sys.workers[r].task;
    WhoWrites(sys.workers[r], FileAt(sys.files, t.filePath), i);
    FileStays(sys.workers[r], FileAt(sys.files, t.filePath), i);
    WorkUnd(sys, r, i);
  }

  lemma WorkUnd(sys: Sys, r: nat, i: Input)
    requires Shape(sys) && r < |sys.workers| && Fits(sys.workers[r], i) && sys.handled[r] <= |sys.logs[r]|
    ensures Shape(AfterWork(sys, r, i)) && Und(sys) == Und(AfterWork(sys, r, i)) && r in Und(sys)
  {
    hide Next, Fits;
    var w, file := sys.workers[r], FileAt(sys.files, sys.workers[r].task.filePath);
    WhoWrites(w, file, i);
    OverSends(w, file, i);
    var sys' := AfterWork(sys, r, i);
    forall r': nat | r' < |sys.workers| ensures Undrained(sys, r') <==> Undrained(sys', r') {
      if r' != r {
        assert sys'.workers[r'] == sys.workers[r'] && sys'.logs[r'] == sys.logs[r'];
      }
    }
  }

  /** A worker that can step is not over, and the step that ends it sends an event. */
  lemma OverSends(w: Worker, file: Option<seq<byte>>, i: Input)
    requires Fits(w, i)
    ensures !w.phase.Over? && (Next(w, file, i).0.phase.Over? ==> |Next(w, file, i).2| > 0)
  {
    hide Prepare, TransferChunk, Slices;
  }

  /** Two undrained downloads of different runs have different files. */
  lemma RunsApart(sys: Sys, r: nat, r': nat)
    requires Shape(sys) && Ordered(sys.sched, Und(sys)) && r in Und(sys) && r' in Und(sys) && r != r'
    requires IsDownload(sys.workers[r].task) && IsDownload(sys.workers[r'].task)
    ensures sys.workers[r].task.filePath != sys.workers[r'].task.filePath
  {
    assert sys.sched.spawned[r].key != sys.sched.spawned[r'].key;
    assert Apart(sys.sched.spawned[r].task, sys.sched.spawned[r'].task);
  }

  /** The live download with the file of an undrained download run is that run's own task. */
  lemma GroupOfFile(sys: Sys, r: nat, k: Key)
    requires Shape(sys) && Core(sys.sched) && Ordered(sys.sched, Und(sys)) && r in Und(sys) && k in sys.sched.groups
    requires IsDownload(sys.workers[r].task) && IsDownload(sys.sched.groups[k].leader)
    requires sys.workers[r].task.filePath == sys.sched.groups[k].leader.filePath
    ensures sys.workers[r].task == sys.sched.groups[k].leader
  {
    hide CountIn;
    assert Apart(sys.sched.groups[k].leader, sys.sched.spawned[r].task);
    assert OwnsOrOrphan(sys.sched.groups, sys.sched.active, sys.sched.spawned[r].key, r);
  }

  lemma WorkKeepsRunsOk(sys: Sys, r: nat, i: Input, remote: Resources)
    requires Shape(sys) && RunsOk(sys, remote) && Ordered(sys.sched, Und(sys)) && CanDo(sys, Work(r, i), remote)
    requires sys.handled[r] <= |sys.logs[r]|
    ensures Shape(AfterWork(sys, r, i)) && RunsOk(AfterWork(sys, r, i), remote)
  {
    hide RunOk, Next, Fits, Sees, HonestInput, Ordered;
    var sys', t := AfterWork(sys, r, i), sys.workers[r].task;
    var file := FileAt(sys.files, t.filePath);
    WorkFiles(sys, r, i, t.filePath);
    WhoWrites(sys.workers[r], file, i);
    forall r' | 0 <= r' < |sys'.workers|
      ensures RunOk(sys'.workers[r'], sys'.logs[r'], sys'.handled[r'], r' in sys'.sched.cancelled,
                    FileAt(sys'.files, sys'.workers[r'].task.filePath), remote(sys'.workers[r'].task.url))
    {
      var w', path := sys.workers[r'], sys.workers[r'].task.filePath;
      assert RunOk(w', sys.logs[r'], sys.handled[r'], r' in sys.sched.cancelled, FileAt(sys.files, path),
                   remote(w'.task.url));
      if r' == r {
        WorkKeepsRunOk(w', sys.logs[r], sys.handled[r], r in sys.sched.cancelled, file, i, remote(t.url));
      } else {
        WorkFiles(sys, r, i, path);
        if FileAt(sys'.files, path) != FileAt(sys.files, path) && IsDownload(w'.task) && r' in Und(sys) {
          RunsApart(sys, r, r');
        }
        HandledAtMost(sys, r', remote);
        OtherRunOk(w', sys.logs[r'], sys.handled[r'], r' in sys.sched.cancelled, FileAt(sys.files, path),
                   FileAt(sys'.files, path), remote(w'.task.url));
      }
    }
  }

  lemma HandledAtMost(sys: Sys, r: nat, remote: Resources)
    requires Shape(sys) && RunsOk(sys, remote) && r < |sys.workers|
    ensures sys.handled[r] <= |sys.logs[r]|
    ensures r !in Und(sys) ==> sys.workers[r].phase.Over? && sys.handled[r] == |sys.logs[r]|
    ensures r in Und(sys) ==>
              WorkerOk(sys.workers[r], FileAt(sys.files, sys.workers[r].task.filePath), remote(sys.workers[r].task.url))
  {
    assert RunOk(sys.workers[r], sys.logs[r], sys.handled[r], r in sys.sched.cancelled,
                 FileAt(sys.files, sys.workers[r].task.filePath), remote(sys.workers[r].task.url));
  }

  lemma WorkKeepsGroupsReady(sys: Sys, r: nat, i: Input, remote: Resources)
    requires SysOk(sys, remote) && CanDo(sys, Work(r, i), remote)
    requires Shape(AfterWork(sys, r, i)) && RunsOk(AfterWork(sys, r, i), remote)
    ensures GroupsReady(sys.sched.groups, AfterWork(sys, r, i).files, remote)
  {
    hide Next, Fits, Sees, HonestInput, Ordered, Core, RunsOk, Und;
    var sys', t := AfterWork(sys, r, i), sys.workers[r].task;
    TopIsCore(sys.sched);
    HandledAtMost(sys, r, remote);
    WorkFiles(sys, r, i, t.filePath);
    HandledAtMost(sys', r, remote);
    WhoWrites(sys.workers[r], FileAt(sys.files, t.filePath), i);
    forall k | k in sys.sched.groups ensures Ready(sys'.files, sys.sched.groups[k].leader, remote) {
      var leader := sys.sched.groups[k].leader;
      WorkFiles(sys, r, i, leader.filePath);
      if IsDownload(leader) && FileAt(sys'.files, leader.filePath) != FileAt(sys.files, leader.filePath) {
        GroupOfFile(sys, r, k);
      }
    }
  }

  lemma WorkKeepsSysOk(sys: Sys, r: nat, i: Input, remote: Resources)
    requires SysOk(sys, remote) && CanDo(sys, Work(r, i), remote)
    ensures SysOk(Do(sys, Work(r, i), remote), remote)
  {
    hide Next, Fits, Sees, HonestInput, Ordered, Top, RunsOk, Und, GroupsReady;
    HandledAtMost(sys, r, remote);
    WorkKeepsRunsOk(sys, r, i, remote);
    WorkFiles(sys, r, i, sys.workers[r].task.filePath);
    WorkKeepsGroupsReady(sys, r, i, remote);
  }

  // ---- every run of the system ----

  lemma StepKeepsSysOk(sys: Sys, step: Step, remote: Resources)
    requires SysOk(sys, remote) && CanDo(sys, step, remote)
    ensures SysOk(Do(sys, step, remote), remote)
  {
    hide SysOk, Do, Possible, Considerate;
    match step
    case Command(a) => CommandKeepsSysOk(sys, a, remote);
    case Deliver(r) => DeliverKeepsSysOk(sys, r, remote);
    case Work(r, i) => WorkKeepsSysOk(sys, r, i, remote);
  }

  /** `sys'` is reached from `sys` by the given steps, each of which was possible when it was taken. */
  ghost predicate Leads(sys: Sys, steps: seq<Step>, sys': Sys, remote: Resources)
    decreases |steps|
  {
    if steps == [] then sys' == sys
    else Shape(sys) && CanDo(sys, steps[0], remote) && Leads(Do(sys, steps[0], remote), steps[1..], sys', remote)
  }

  function Init(maxUpload: nat, maxDownload: nat, files: map<string, seq<byte>>): Sys {
    Sys(New(maxUpload, maxDownload), [], [], [], files)
  }

  ghost predicate Reachable(sys: Sys, remote: Resources) {
    exists maxUpload, maxDownload, files, steps :: Leads(Init(maxUpload, maxDownload, files), steps, sys, remote)
  }

  lemma {:induction false} LeadsKeepsSysOk(sys: Sys, steps: seq<Step>, sys': Sys, remote: Resources)
    requires SysOk(sys, remote) && Leads(sys, steps, sys', remote)
    ensures SysOk(sys', remote)
    decreases |steps|
  {
    hide SysOk, Do, Possible, Considerate, Shape;
    if steps != [] {
      StepKeepsSysOk(sys, steps[0], remote);
      LeadsKeepsSysOk(Do(sys, steps[0], remote), steps[1..], sys', remote);
    }
  }

  lemma ReachableIsOk(sys: Sys, remote: Resources)
    requires Reachable(sys, remote)
    ensures SysOk(sys, remote)
  {
    hide Leads;
    var maxUpload, maxDownload, files, steps :| Leads(Init(maxUpload, maxDownload, files), steps, sys, remote);
    InitIsOk(maxUpload, maxDownload, files, remote);
    LeadsKeepsSysOk(Init(maxUpload, maxDownload, files), steps, sys, remote);
  }

  lemma InitIsOk(maxUpload: nat, maxDownload: nat, files: map<string, seq<byte>>, remote: Resources)
    ensures SysOk(Init(maxUpload, maxDownload, files), remote)
  {
    hide Top;
    NewTop(maxUpload, maxDownload);
  }
}
