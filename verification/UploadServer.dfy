/**
 Uploads against a server that keeps what it has got and tells the truth about it: over any pauses, resumes, lost
 replies and retries, a completed upload is completely there.
 */
module UploadServer {
  import opened Basics
  import opened Arithmetic
  import opened SchedulerState
  import opened Invariants
  import opened Runs
  import opened HttpClient
  import opened Worker
  import opened WorkerSafety
  import opened Protocol
  import opened System
  import opened Offsets
  import opened EndToEnd
  import opened UploadTiling
  import WorkerTermination

  /** What a server holds of one upload, byte by byte; there may be holes. */
  type Held = nat -> Option<byte>

  /** The content behind every upload key: the key is a digest of it. */
  type Sources = Key -> seq<byte>

  /** The first `n` bytes of the source are there. */
  ghost predicate Covers(held: Held, source: seq<byte>, n: int) {
    n <= |source| && forall p: nat :: p < n ==> held(p) == Some(source[p])
  }

  function Store(held: Held, offset: nat, slice: seq<byte>): Held {
    (p: nat) => if offset <= p < offset + |slice| then Some(slice[p - offset]) else held(p)
  }

  /** Storing a slice of the source where it belongs. */
  lemma StoreCovers(held: Held, source: seq<byte>, offset: nat, end: nat, n: nat)
    requires offset <= end <= |source|
    ensures var held' := Store(held, offset, source[offset..end]);
            && (Covers(held, source, n) ==> Covers(held', source, n))
            && (Covers(held, source, offset) ==> Covers(held', source, end))
            && (n <= offset ==> (Covers(held', source, n) <==> Covers(held, source, n)))
  {}

  // ---- the system and its upload server ----

  datatype Net = Net(sys: Sys, held: map<Key, Held>)

  /** A step of the system; if it sends a slice, `stored` says whether that reaches the server. */
  datatype NetStep = NetStep(step: Step, stored: bool)

  function HeldOf(net: Net, k: Key): Held {
    if k in net.held then net.held[k] else _ => None
  }

  predicate IsUploadWork(sys: Sys, step: Step) {
    step.Work? && step.r < |sys.workers| && sys.workers[step.r].task.direction == Upload
  }

  function IoOf(sys: Sys, r: nat): TaskIo
    requires r < |sys.workers|
  {
    TaskIo(FileAt(sys.files, sys.workers[r].task.filePath), sys.workers[r].open)
  }

  /** The slices that a step sends: at most one. */
  function Sent(sys: Sys, step: Step): seq<seq<byte>> {
    if IsUploadWork(sys, step) && step.i.Attempted? && sys.workers[step.r].phase.Sending? then
      Slices(sys.workers[step.r].task, IoOf(sys, step.r), sys.workers[step.r].phase.offset, step.i.chunk)
    else []
  }

  function HeldAfter(net: Net, n: NetStep, k: Key): Held {
    if n.stored && |Sent(net.sys, n.step)| == 1 && net.sys.workers[n.step.r].key == k
    then Store(HeldOf(net, k), net.sys.workers[n.step.r].phase.offset, Sent(net.sys, n.step)[0])
    else HeldOf(net, k)
  }

  ghost function NetDo(net: Net, n: NetStep, remote: Resources): Net
    requires Shape(net.sys) && Possible(net.sys, n.step, remote)
  {
    var held := if IsUploadWork(net.sys, n.step) then
                  var key := net.sys.workers[n.step.r].key;
                  net.held[key := HeldAfter(net, n, key)]
                else net.held;
    Net(Do(net.sys, n.step, remote), held)
  }

  /**
   The server's side. It names as its next byte only one before which it holds everything, confirms a slice only when
   it has stored it, and says that the file is complete only when it is. What is read from disk is the key's content.
   */
  ghost predicate Truthful(net: Net, n: NetStep, sources: Sources) {
    IsUploadWork(net.sys, n.step) ==>
      var w := net.sys.workers[n.step.r];
      var source := sources(w.key);
      match n.step.i
      case Prepared(env) =>
        forall info :: Parsed(env.probe, info) ==>
          && (info.completed ==> Covers(HeldOf(net, w.key), source, w.task.totalSize))
          && (info.nextByte.Some? ==> Covers(HeldOf(net, w.key), source, info.nextByte.value))
      case Attempted(env) =>
        Sent(net.sys, n.step) != [] ==>
          && IoOf(net.sys, n.step.r).Content() == source
          && forall info :: Parsed(env.post, info) ==>
               n.stored && (info.completed ==> Covers(HeldAfter(net, n, w.key), source, w.task.totalSize))
      case _ => true
  }

  // ---- the invariant ----

  /** Everything an upload worker believes to be done is on the server. */
  ghost predicate Backed(w: Worker, log: seq<WorkerEvent>, held: Held, source: seq<byte>) {
    w.task.direction == Upload ==>
      && (w.phase.Preparing? ==> Covers(held, source, w.phase.start))
      && (InLoop(w.phase) ==> Covers(held, source, w.phase.offset))
      && (w.phase.Got? ==> Covers(held, source, w.phase.outcome.nextOffset))
      && (w.phase.Finishing? ==> Covers(held, source, w.task.totalSize))
      && (forall e :: e in log && e.Progress? ==> Covers(held, source, e.nextOffset))
      && (forall e :: e in log && e.Completed? ==> Covers(held, source, w.task.totalSize))
  }

  /** The server has got more meanwhile. */
  lemma StaysBacked(w: Worker, log: seq<WorkerEvent>, held: Held, held': Held, source: seq<byte>)
    requires Backed(w, log, held, source)
    requires forall n :: Covers(held, source, n) ==> Covers(held', source, n)
    ensures Backed(w, log, held', source)
  {
    hide Covers;
  }

  lemma SliceSent(task: InnerTask, io: TaskIo, offset: u64, env: ChunkEnv)
    requires task.direction == Upload && offset <= task.totalSize
    ensures var slices := Slices(task, io, offset, env);
            && |slices| <= 1
            && (slices != [] ==>
                  var end := offset + ReadLength(task, offset);
                  offset < end <= |io.Content()| && slices == [io.Content()[offset..end]])
            && (var r := UploadChunk(task, io, offset, env).1;
                r.Ok? ==>
                  if slices == [] then r.value.nextOffset == offset
                  else exists info ::
                         && Parsed(env.post, info)
                         && r.value.nextOffset ==
                            if info.completed then task.totalSize else offset + ReadLength(task, offset))
  {
    var r := UploadChunk(task, io, offset, env).1;
    if r.Ok? && Slices(task, io, offset, env) != [] {
      assert Parsed(env.post, env.post.info.value);
    }
  }

  lemma OfferedMore(held: Held, source: seq<byte>, m: int, n: int)
    requires Covers(held, source, n) && m <= n
    ensures Covers(held, source, m)
  {}

  lemma PrepareBacked(w: Worker, file: Option<seq<byte>>, env: PrepareEnv, held: Held, source: seq<byte>)
    requires w.phase.Preparing? && w.task.direction == Upload && Backed(w, [], held, source)
    requires forall info :: Parsed(env.probe, info) ==>
               && (info.completed ==> Covers(held, source, w.task.totalSize))
               && (info.nextByte.Some? ==> Covers(held, source, info.nextByte.value))
    ensures var (w', _, ev) := Next(w, file, Prepared(env)); Backed(w', ev, held, source)
  {
    hide Covers;
    if UploadPrepare(w.task, w.phase.start, env).Ok? {
      var info := env.probe.info.value;
      assert Parsed(env.probe, info);
      var server := if info.nextByte.Some? then info.nextByte.value else 0;
      NothingNeeded(held, source);
      if info.completed {
      } else {
        assert Covers(held, source, Max(w.phase.start, server));
        OfferedMore(held, source, Min(Max(w.phase.start, server), w.task.totalSize), Max(w.phase.start, server));
      }
    }
  }

  lemma NothingNeeded(held: Held, source: seq<byte>)
    ensures Covers(held, source, 0)
  {}

  lemma AttemptBacked(w: Worker, file: Option<seq<byte>>, env: ChunkEnv, log: seq<WorkerEvent>, held: Held, held': Held,
                      source: seq<byte>)
    requires w.phase.Sending? && w.task.direction == Upload && UploadOk(w) && Backed(w, log, held, source)
    requires forall n :: Covers(held, source, n) ==> Covers(held', source, n)
    requires Slices(w.task, TaskIo(file, w.open), w.phase.offset, env) != [] ==>
               forall info :: Parsed(env.post, info) ==>
                 && Covers(held', source, w.phase.offset + ReadLength(w.task, w.phase.offset))
                 && (info.completed ==> Covers(held', source, w.task.totalSize))
    ensures var (w', _, ev) := Next(w, file, Attempted(env)); Backed(w', log + ev, held', source)
  {
    hide Covers, UploadChunk, Slices, Parsed;
    SliceSent(w.task, TaskIo(file, w.open), w.phase.offset, env);
  }

  lemma OtherBacked(w: Worker, file: Option<seq<byte>>, i: Input, log: seq<WorkerEvent>, held: Held, source: seq<byte>)
    requires Fits(w, i) && !i.Prepared? && !i.Attempted? && w.task.direction == Upload && UploadOk(w)
    requires Backed(w, log, held, source)
    ensures var (w', _, ev) := Next(w, file, i); Backed(w', log + ev, held, source)
  {
    hide Covers;
  }

  /** A worker's step, with what it does to the server. */
  lemma WorkBacked(net: Net, n: NetStep, remote: Resources, sources: Sources)
    requires SysOk(net.sys, remote) && CanDo(net.sys, n.step, remote) && n.step.Work? && IsUploadWork(net.sys, n.step)
    requires Truthful(net, n, sources)
    requires var w := net.sys.workers[n.step.r]; Backed(w, net.sys.logs[n.step.r], HeldOf(net, w.key), sources(w.key))
    ensures var (r, w) := (n.step.r, net.sys.workers[n.step.r]);
            var (w', _, ev) := Next(w, IoOf(net.sys, r).file, n.step.i);
            Backed(w', net.sys.logs[r] + ev, HeldAfter(net, n, w.key), sources(w.key))
  {
    hide Top, Ordered, RunsOk, GroupsReady, Covers, Store, Next, Slices, Parsed, Backed, LogOk, Undrained;
    var r, i := n.step.r, n.step.i;
    var w, log := net.sys.workers[r], net.sys.logs[r];
    HandledAtMost(net.sys, r, remote);
    LogOfRun(net.sys, r, remote);
    WorkUnd(net.sys, r, i);
    match i
    case Prepared(env) =>
      NoLogYet(w, log);
      assert [] + Next(w, IoOf(net.sys, r).file, i).2 == Next(w, IoOf(net.sys, r).file, i).2;
      PrepareBacked(w, IoOf(net.sys, r).file, env, HeldOf(net, w.key), sources(w.key));
    case Attempted(env) =>
      LoopIsBacked(w, log, HeldOf(net, w.key), sources(w.key));
      SentCovers(net, n, sources);
      AttemptBacked(w, IoOf(net.sys, r).file, env, log, HeldOf(net, w.key), HeldAfter(net, n, w.key), sources(w.key));
    case _ =>
      OtherBacked(w, IoOf(net.sys, r).file, i, log, HeldOf(net, w.key), sources(w.key));
  }

  lemma LoopIsBacked(w: Worker, log: seq<WorkerEvent>, held: Held, source: seq<byte>)
    requires Backed(w, log, held, source) && w.task.direction == Upload && InLoop(w.phase)
    ensures Covers(held, source, w.phase.offset)
  {}

  lemma NoLogYet(w: Worker, log: seq<WorkerEvent>)
    requires LogOk(w, log) && w.phase.Preparing?
    ensures log == []
  {}

  lemma LogOfRun(sys: Sys, r: nat, remote: Resources)
    requires Shape(sys) && RunsOk(sys, remote) && r < |sys.workers|
    ensures LogOk(sys.workers[r], sys.logs[r])
  {
    hide LogOk, WorkerOk, CopiedOk;
    assert RunOk(sys.workers[r], sys.logs[r], sys.handled[r], r in sys.sched.cancelled,
                 FileAt(sys.files, sys.workers[r].task.filePath), remote(sys.workers[r].task.url));
  }

  /** What a truthful server holds after an attempt. */
  lemma SentCovers(net: Net, n: NetStep, sources: Sources)
    requires IsUploadWork(net.sys, n.step) && n.step.i.Attempted? && Truthful(net, n, sources)
    requires var w := net.sys.workers[n.step.r];
             && w.phase.Sending? && UploadOk(w) && Covers(HeldOf(net, w.key), sources(w.key), w.phase.offset)
    ensures var w := net.sys.workers[n.step.r];
            var held, held', source := HeldOf(net, w.key), HeldAfter(net, n, w.key), sources(w.key);
            && (forall m :: Covers(held, source, m) ==> Covers(held', source, m))
            && (Sent(net.sys, n.step) != [] ==>
                  forall info :: Parsed(n.step.i.chunk.post, info) ==>
                    && Covers(held', source, w.phase.offset + ReadLength(w.task, w.phase.offset))
                    && (info.completed ==> Covers(held', source, w.task.totalSize)))
  {
    hide Covers, Store, Slices, Parsed;
    var w := net.sys.workers[n.step.r];
    var held, source := HeldOf(net, w.key), sources(w.key);
    SliceSent(w.task, IoOf(net.sys, n.step.r), w.phase.offset, n.step.i.chunk);
    if Sent(net.sys, n.step) != [] {
      var end := w.phase.offset + ReadLength(w.task, w.phase.offset);
      var held' := Store(held, w.phase.offset, source[w.phase.offset..end]);
      forall m: int ensures Covers(held, source, m) ==> Covers(held', source, m) {
        CoversAny(held, source, w.phase.offset, end, m);
      }
      StoreCovers(held, source, w.phase.offset, end, 0);
    }
  }

  lemma CoversAny(held: Held, source: seq<byte>, offset: nat, end: nat, m: int)
    requires offset <= end <= |source|
    ensures Covers(held, source, m) ==> Covers(Store(held, offset, source[offset..end]), source, m)
  {}

  // ---- the whole system ----

  ghost predicate RunBacked(net: Net, r: nat, sources: Sources)
    requires r < |net.sys.workers| == |net.sys.logs|
  {
    var w := net.sys.workers[r];
    Backed(w, net.sys.logs[r], HeldOf(net, w.key), sources(w.key))
  }

  ghost predicate NetOk(net: Net, remote: Resources, sources: Sources) {
    && SysOk(net.sys, remote)
    && (forall r :: 0 <= r < |net.sys.workers| ==> RunBacked(net, r, sources))
    && (forall k :: k in net.sys.sched.offsets && k.dir == Upload ==>
          Covers(HeldOf(net, k), sources(k), net.sys.sched.offsets[k]))
  }

  /** What a server holds only grows: a truthful step never takes a covered byte away. */
  lemma HeldGrows(net: Net, n: NetStep, k: Key, m: int, remote: Resources, sources: Sources)
    requires NetOk(net, remote, sources) && CanDo(net.sys, n.step, remote) && Truthful(net, n, sources)
    ensures Covers(HeldOf(net, k), sources(k), m) ==> Covers(HeldOf(NetDo(net, n, remote), k), sources(k), m)
  {
    hide Top, Ordered, RunsOk, GroupsReady, Covers, Store, Slices, Do, Undrained, Parsed, Next;
    if IsUploadWork(net.sys, n.step) && n.step.i.Attempted? && net.sys.workers[n.step.r].key == k {
      var r := n.step.r;
      HandledAtMost(net.sys, r, remote);
      WorkUnd(net.sys, r, n.step.i);
      assert RunBacked(net, r, sources);
      LoopIsBacked(net.sys.workers[r], net.sys.logs[r], HeldOf(net, k), sources(k));
      SentCovers(net, n, sources);
    }
  }

  lemma WorkKeepsNet(net: Net, n: NetStep, r: nat, remote: Resources, sources: Sources)
    requires NetOk(net, remote, sources) && CanDo(net.sys, n.step, remote) && Truthful(net, n, sources) && n.step.Work?
    requires r < |net.sys.workers|
    ensures var net' := NetDo(net, n, remote);
            && r < |net'.sys.workers| == |net'.sys.logs| && RunBacked(net', r, sources)
  {
    hide Top, Ordered, RunsOk, GroupsReady, Covers, Slices, Undrained, Truthful, Next, Fits, HonestInput, HeldAfter,
         SysOk, Backed;
    OkIsTop(net.sys, remote);
    var net' := NetDo(net, n, remote);
    var (w, i) := (net.sys.workers[n.step.r], n.step.i);
    WhoWrites(w, FileAt(net.sys.files, w.task.filePath), i);
    assert RunBacked(net, r, sources);
    if r == n.step.r && w.task.direction == Upload {
      WorkBacked(net, n, remote, sources);
    } else if r == n.step.r {
      DownloadsAreBacked(net'.sys.workers[r], net'.sys.logs[r], HeldOf(net', w.key), sources(w.key));
    } else {
      var k := net.sys.workers[r].key;
      forall m: int ensures Covers(HeldOf(net, k), sources(k), m) ==> Covers(HeldOf(net', k), sources(k), m) {
        HeldGrows(net, n, k, m, remote, sources);
      }
      StaysBacked(net.sys.workers[r], net.sys.logs[r], HeldOf(net, k), HeldOf(net', k), sources(k));
    }
  }

  lemma DownloadsAreBacked(w: Worker, log: seq<WorkerEvent>, held: Held, source: seq<byte>)
    requires w.task.direction == Download
    ensures Backed(w, log, held, source)
  {}

  /** The scheduler's side of a step: runs as they are, new ones from covered offsets. */
  lemma SpawnKeepsNet(net: Net, sys1: Sys, s: Sched, r: nat, sources: Sources)
    requires Shape(net.sys) && Shape(sys1) && sys1.workers == net.sys.workers && sys1.logs == net.sys.logs
    requires sys1.sched.spawned <= s.spawned
    requires forall r :: 0 <= r < |net.sys.workers| ==> RunBacked(net, r, sources)
    requires StartedFromOffsets(s.offsets, s.spawned, |sys1.sched.spawned|)
    requires forall k :: k in s.offsets && k.dir == Upload ==> Covers(HeldOf(net, k), sources(k), s.offsets[k])
    requires forall r :: 0 <= r < |s.spawned| ==> s.spawned[r].key == s.spawned[r].task.DedupeKey()
    requires r < |s.spawned|
    ensures var sys' := Spawn(sys1, s);
            r < |sys'.workers| == |sys'.logs| && RunBacked(Net(sys', net.held), r, sources)
  {
    hide Covers, Backed, Spawn;
    SpawnShape(sys1, s);
    if r < |sys1.workers| {
      SpawnKeepsRuns(sys1, s, r);
      assert RunBacked(net, r, sources);
    } else {
      SpawnedWorker(sys1, s, r);
      var run := s.spawned[r];
      if run.task.direction == Download {
        DownloadsAreBacked(NewWorker(run.key, run.task, run.start), [], HeldOf(net, run.key), sources(run.key));
      } else {
        NothingNeeded(HeldOf(net, run.key), sources(run.key));
        NewUploadIsBacked(run, HeldOf(net, run.key), sources(run.key));
      }
    }
  }

  lemma NewUploadIsBacked(run: Run, held: Held, source: seq<byte>)
    requires Covers(held, source, run.start)
    ensures Backed(NewWorker(run.key, run.task, run.start), [], held, source)
  {
    hide Covers;
  }

  /** After a command or an event, every remembered offset of an upload is still covered. */
  lemma OffsetsCovered(net: Net, n: NetStep, k: Key, remote: Resources, sources: Sources)
    requires NetOk(net, remote, sources) && CanDo(net.sys, n.step, remote) && !n.step.Work? && !net.sys.sched.closed
    requires var a := if n.step.Command? then n.step.a else Event(net.sys.logs[n.step.r][net.sys.handled[n.step.r]]);
             k in Body(net.sys.sched, a).offsets && k.dir == Upload
    ensures var a := if n.step.Command? then n.step.a else Event(net.sys.logs[n.step.r][net.sys.handled[n.step.r]]);
            Covers(HeldOf(net, k), sources(k), Body(net.sys.sched, a).offsets[k])
  {
    hide Core, WorkConserving, Ordered, GroupsReady, Covers, CountIn, LogOk, WorkerOk, CopiedOk, Considerate;
    hide Sched.PauseGroup, Sched.ResumeGroup, Sched.CancelGroup, Sched.Close, Sched.Admit, Sched.Handle;
    var s := net.sys.sched;
    if n.step.Command? {
      CommandFields(s, n.step.a);
    } else {
      var r := n.step.r;
      var e := net.sys.logs[r][net.sys.handled[r]];
      HandleFields(s, e);
      EventHasRunKey(net.sys, r, remote);
      assert e in net.sys.logs[r] && RunBacked(net, r, sources);
      UploadKeys(net.sys, r, remote);
    }
  }

  lemma UploadKeys(sys: Sys, r: nat, remote: Resources)
    requires SysOk(sys, remote) && r < |sys.workers|
    ensures sys.workers[r].key == sys.workers[r].task.DedupeKey()
  {
    hide Top, RunsOk, GroupsReady, OneWorker, SeparateFiles;
  }

  /** A step of the scheduler, as a message, a starting point and a result. */
  lemma SchedulerKeepsNet(net: Net, n: NetStep, sys1: Sys, a: Action, remote: Resources, sources: Sources)
    requires NetOk(net, remote, sources) && CanDo(net.sys, n.step, remote) && !n.step.Work? && !net.sys.sched.closed
    requires a == if n.step.Command? then n.step.a else Event(net.sys.logs[n.step.r][net.sys.handled[n.step.r]])
    requires Shape(sys1) && sys1.workers == net.sys.workers && sys1.logs == net.sys.logs && sys1.sched == net.sys.sched
    requires Do(net.sys, n.step, remote) == Spawn(sys1, Apply(net.sys.sched, a))
    requires SysOk(Do(net.sys, n.step, remote), remote)
    ensures NetOk(NetDo(net, n, remote), remote, sources)
  {
    hide Top, Core, Ordered, RunsOk, GroupsReady, Covers, Backed, Body, Apply, Spawn, Considerate, Fresh;
    var s, b := net.sys.sched, Body(net.sys.sched, a);
    var sys' := Do(net.sys, n.step, remote);
    TopIsCore(s);
    BodySpawns(s, a);
    ApplyIsBodyThenStart(s, a);
    TryStartStartsLeaders(b);
    PassStartsFrom(b.(queued := [], queuedSet := {}), b.queued);
    SpawnSched(sys1, b.TryStart());
    forall k | k in b.offsets && k.dir == Upload ensures Covers(HeldOf(net, k), sources(k), b.offsets[k]) {
      OffsetsCovered(net, n, k, remote, sources);
    }
    forall r | 0 <= r < |sys'.workers| ensures RunBacked(Net(sys', net.held), r, sources) {
      AllKeys(sys', remote);
      SpawnKeepsNet(net, sys1, b.TryStart(), r, sources);
    }
  }

  lemma AllKeys(sys: Sys, remote: Resources)
    requires SysOk(sys, remote)
    ensures Shape(sys)
    ensures forall r :: 0 <= r < |sys.sched.spawned| ==>
              sys.sched.spawned[r].key == sys.sched.spawned[r].task.DedupeKey()
  {
    hide Top, RunsOk, GroupsReady, OneWorker, SeparateFiles;
  }

  /** No step of the system, as long as the server is truthful, makes anybody believe what is not there. */
  lemma StepKeepsNet(net: Net, n: NetStep, remote: Resources, sources: Sources)
    requires NetOk(net, remote, sources) && CanDo(net.sys, n.step, remote) && Truthful(net, n, sources)
    ensures NetOk(NetDo(net, n, remote), remote, sources)
  {
    hide SysOk, Covers, Backed, Truthful, Apply, Possible, Considerate, Spawn, AfterWork;
    OkIsTop(net.sys, remote);
    StepKeepsSysOk(net.sys, n.step, remote);
    match n.step
    case Command(a) =>
      if net.sys.sched.closed {
        ClosedStays(net.sys, a);
      } else {
        SchedulerKeepsNet(net, n, net.sys, a, remote, sources);
      }
    case Deliver(r) =>
      OpenDelivery(net.sys, r, remote);
      var sys1 := net.sys.(handled := net.sys.handled[r := net.sys.handled[r] + 1]);
      SchedulerKeepsNet(net, n, sys1, Event(net.sys.logs[r][net.sys.handled[r]]), remote, sources);
    case Work(r, i) =>
      WorkersStay(net.sys, r, i, remote);
      var net' := NetDo(net, n, remote);
      forall r' | 0 <= r' < |net'.sys.workers| ensures RunBacked(net', r', sources) {
        WorkKeepsNet(net, n, r', remote, sources);
      }
      forall k | k in net'.sys.sched.offsets && k.dir == Upload
        ensures Covers(HeldOf(net', k), sources(k), net'.sys.sched.offsets[k])
      {
        HeldGrows(net, n, k, net.sys.sched.offsets[k], remote, sources);
      }
  }

  lemma OpenDelivery(sys: Sys, r: nat, remote: Resources)
    requires Shape(sys) && Possible(sys, Deliver(r), remote)
    ensures r < |sys.workers| && sys.handled[r] < |sys.logs[r]| && !sys.sched.closed
    ensures Shape(sys.(handled := sys.handled[r := sys.handled[r] + 1]))
  {}

  lemma WorkersStay(sys: Sys, r: nat, i: Input, remote: Resources)
    requires Shape(sys) && Possible(sys, Work(r, i), remote)
    ensures var sys' := Do(sys, Work(r, i), remote);
            sys'.sched == sys.sched && |sys'.workers| == |sys.workers| == |sys'.logs|
  {
    hide Next, Fits, HonestInput;
  }

  /** A run of the system with its upload server. */
  ghost predicate NetLeads(net: Net, steps: seq<NetStep>, net': Net, remote: Resources, sources: Sources)
    decreases |steps|
  {
    if steps == [] then net' == net
    else
      && Shape(net.sys) && CanDo(net.sys, steps[0].step, remote) && Truthful(net, steps[0], sources)
      && NetLeads(NetDo(net, steps[0], remote), steps[1..], net', remote, sources)
  }

  /** The server may hold anything when the process starts. */
  ghost predicate NetReachable(net: Net, remote: Resources, sources: Sources) {
    exists maxUpload, maxDownload, files, held, steps ::
      NetLeads(Net(Init(maxUpload, maxDownload, files), held), steps, net, remote, sources)
  }

  lemma {:induction false} NetRunIsOk(net: Net, steps: seq<NetStep>, net': Net, remote: Resources, sources: Sources)
    requires NetOk(net, remote, sources) && NetLeads(net, steps, net', remote, sources)
    ensures NetOk(net', remote, sources)
    decreases |steps|
  {
    hide NetOk, NetDo, Possible, Considerate, Truthful;
    if steps != [] {
      StepKeepsNet(net, steps[0], remote, sources);
      NetRunIsOk(NetDo(net, steps[0], remote), steps[1..], net', remote, sources);
    }
  }

  lemma NetReachableIsOk(net: Net, remote: Resources, sources: Sources)
    requires NetReachable(net, remote, sources)
    ensures NetOk(net, remote, sources)
  {
    hide NetLeads, SysOk;
    var maxUpload, maxDownload, files, held, steps :|
      NetLeads(Net(Init(maxUpload, maxDownload, files), held), steps, net, remote, sources);
    InitIsOk(maxUpload, maxDownload, files, remote);
    NetRunIsOk(Net(Init(maxUpload, maxDownload, files), held), steps, net, remote, sources);
  }

  /**
   End to end: whatever failures, lost replies, retries, pauses and resumes went before, when an upload's callback
   hears `Complete` the server holds the file, byte for byte.
   */
  lemma CompleteMeansStored(net: Net, n: NetStep, remote: Resources, sources: Sources, id: TaskId)
    requires NetReachable(net, remote, sources) && Shape(net.sys) && CanDo(net.sys, n.step, remote)
    requires Hears(net.sys, n.step, remote, id, Complete)
    ensures id in net.sys.sched.taskIdToDedupe && net.sys.sched.taskIdToDedupe[id] in net.sys.sched.groups
    ensures var k := net.sys.sched.taskIdToDedupe[id];
            var t := net.sys.sched.groups[k].leader;
            t.taskId == id && (t.direction == Upload ==> Covers(HeldOf(net, k), sources(k), t.totalSize))
  {
    hide NetReachable, SysOk, Hears, Possible, Considerate, Covers, Backed;
    NetReachableIsOk(net, remote, sources);
    var sys, step := net.sys, n.step;
    HeardDirectly(sys, step, remote, id, Complete);
    NotAnEvent(sys, step, remote);
    StepIndex(sys, step, remote);
    EventAtCursor(sys, step.r, remote);
    OwnedIsLive(sys, remote, id);
    LiveRunIsOwn(sys, step.r, remote);
    LeaderHasId(sys, remote, id);
    var e := sys.logs[step.r][sys.handled[step.r]];
    OkIsTop(sys, remote);
    assert e in sys.logs[step.r] && RunBacked(net, step.r, sources);
    CompletedIsBacked(sys.workers[step.r], sys.logs[step.r], e, HeldOf(net, e.key), sources(e.key));
  }

  lemma CompletedIsBacked(w: Worker, log: seq<WorkerEvent>, e: WorkerEvent, held: Held, source: seq<byte>)
    requires Backed(w, log, held, source) && e in log && e.Completed?
    ensures w.task.direction == Upload ==> Covers(held, source, w.task.totalSize)
  {}

  // ---- a server that forgets ----

  /**
   One upload run, whatever the server held before. It begins where prepare says, sends everything from there, and
   reports `Completed`. Then the file is complete on the server iff the server held all of it up to the start.
   */
  lemma CompleteIffNothingSkipped(key: Key, task: InnerTask, local: u64, file: Option<seq<byte>>, inputs: seq<Input>,
                                  held: Held)
    requires task.direction == Upload && 1 <= task.chunkSize
    requires FitsAll(NewWorker(key, task, local), file, inputs) && NoEarlyIds(NewWorker(key, task, local), file, inputs)
    requires WorkerTermination.Begun(NewWorker(key, task, local), file, inputs).Some?
    requires var log := Replay(NewWorker(key, task, local), file, inputs).2; log != [] && log[|log| - 1].Completed?
    requires task.totalSize <= |TaskIo(file, false).Content()|
    ensures var source := TaskIo(file, false).Content();
            var start := WorkerTermination.Begun(NewWorker(key, task, local), file, inputs).value;
            var w := Replay(NewWorker(key, task, local), file, inputs).0;
            Covers(Store(held, start, Concat(w.accepted)), source, task.totalSize) <==> Covers(held, source, start)
  {
    hide FitsAll, NoEarlyIds, Replay, WorkerTermination.Begun, Covers, Store;
    UploadTilesTheSource(key, task, local, file, inputs);
    var source := TaskIo(file, false).Content();
    var start := WorkerTermination.Begun(NewWorker(key, task, local), file, inputs).value;
    var w := Replay(NewWorker(key, task, local), file, inputs).0;
    if start == task.totalSize {
      NoSlices(w.accepted, task.chunkSize);
      StoreNothing(held, source, start, start);
    } else {
      StoreRest(held, source, start, task.totalSize);
    }
  }

  lemma NoSlices(slices: seq<seq<byte>>, chunk: nat)
    requires 1 <= chunk && |slices| == CeilDiv(0, chunk)
    ensures slices == [] && Concat(slices) == []
  {
    DivIs(chunk - 1, chunk, 0);
  }

  lemma StoreNothing(held: Held, source: seq<byte>, offset: nat, n: nat)
    ensures Covers(Store(held, offset, []), source, n) <==> Covers(held, source, n)
  {}

  lemma StoreRest(held: Held, source: seq<byte>, start: nat, total: nat)
    requires start <= total <= |source|
    ensures Covers(Store(held, start, source[start..total]), source, total) <==> Covers(held, source, start)
  {
    var held' := Store(held, start, source[start..total]);
    if Covers(held', source, total) {
      forall p: nat | p < start ensures held(p) == Some(source[p]) {
        assert held'(p) == Some(source[p]);
      }
    }
  }

  /**
   If the server names exactly how far it holds everything, an upload begins inside that iff the scheduler's offset
   does not lie past it: what the server forgot after the last report is skipped.
   */
  lemma BeginsCoveredIff(task: InnerTask, local: u64, info: UploadInfo, held: Held, source: seq<byte>)
    requires !info.completed && task.totalSize == |source|
    requires var server := if info.nextByte.Some? then info.nextByte.value else 0;
             Covers(held, source, server) && (server < |source| ==> !Covers(held, source, server + 1))
    ensures var server := if info.nextByte.Some? then info.nextByte.value else 0;
            Covers(held, source, UploadBegin(task, local, info)) <==> local <= server || server == task.totalSize
  {
    var server := if info.nextByte.Some? then info.nextByte.value else 0;
    var start := UploadBegin(task, local, info);
    if Covers(held, source, start) && server < start {
      OfferedMore(held, source, server + 1, start);
    }
    if start <= server {
      OfferedMore(held, source, start, server);
    }
  }
}
