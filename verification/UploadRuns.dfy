/** Uploads that really happen: one that completes, and one that completes although the server has forgotten bytes. */
module UploadRuns {
  import opened Basics
  import opened Arithmetic
  import opened SchedulerState
  import opened Invariants
  import opened Runs
  import opened StatusTrace
  import opened HttpClient
  import opened Worker
  import opened WorkerSafety
  import opened Protocol
  import opened System
  import opened EndToEnd
  import opened Scenarios
  import opened UploadServer

  // ---- extending a run ----

  ghost predicate NetComes(net0: Net, net: Net, remote: Resources, sources: Sources) {
    exists steps :: NetLeads(net0, steps, net, remote, sources)
  }

  lemma {:induction false} NetLeadsSnoc(net0: Net, steps: seq<NetStep>, net: Net, n: NetStep, remote: Resources,
                                        sources: Sources)
    requires NetLeads(net0, steps, net, remote, sources)
    requires Shape(net.sys) && CanDo(net.sys, n.step, remote) && Truthful(net, n, sources)
    ensures NetLeads(net0, steps + [n], NetDo(net, n, remote), remote, sources)
    decreases |steps|
  {
    hide NetDo, Possible, Considerate, Shape, Truthful;
    if steps == [] {
      assert ([] + [n])[1..] == [] && (steps + [n])[0] == n;
      assert NetLeads(NetDo(net, n, remote), [], NetDo(net, n, remote), remote, sources);
    } else {
      assert (steps + [n])[1..] == steps[1..] + [n];
      NetLeadsSnoc(NetDo(net0, steps[0], remote), steps[1..], net, n, remote, sources);
    }
  }

  lemma NetNext(net0: Net, net: Net, n: NetStep, remote: Resources, sources: Sources)
    requires NetComes(net0, net, remote, sources)
    requires Shape(net.sys) && CanDo(net.sys, n.step, remote) && Truthful(net, n, sources)
    ensures NetComes(net0, NetDo(net, n, remote), remote, sources)
  {
    hide NetLeads, NetDo, Possible, Considerate, Shape, Truthful;
    var steps :| NetLeads(net0, steps, net, remote, sources);
    NetLeadsSnoc(net0, steps, net, n, remote, sources);
  }

  lemma NetStarts(net: Net, remote: Resources, sources: Sources)
    ensures NetComes(net, net, remote, sources)
  {
    assert NetLeads(net, [], net, remote, sources);
  }

  /** A step that sends nothing is truthful, and the server holds what it held. */
  lemma NetOther(net0: Net, net: Net, step: Step, k: Key, remote: Resources, sources: Sources) returns (net': Net)
    requires NetComes(net0, net, remote, sources) && Shape(net.sys) && CanDo(net.sys, step, remote)
    requires step.Work? ==> !step.i.Attempted? && !step.i.Prepared?
    ensures NetComes(net0, net', remote, sources)
    ensures net'.sys == Do(net.sys, step, remote) && HeldOf(net', k) == HeldOf(net, k)
  {
    hide NetComes, Possible, Considerate, Do, Shape;
    NetNext(net0, net, NetStep(step, false), remote, sources);
    net' := NetDo(net, NetStep(step, false), remote);
  }

  // ---- one chunk of an upload ----

  function Reply(nextByte: Option<u64>): PostReply {
    Answer(200, Some(UploadInfo(false, nextByte)))
  }

  function ChunkEnd(t: InnerTask, offset: u64): int {
    Min(offset + t.chunkSize, t.totalSize)
  }

  /** The source as a task on disk. */
  predicate Uploads(t: InnerTask, source: seq<byte>) {
    t.direction == Upload && 1 <= t.chunkSize && t.totalSize == |source|
  }

  lemma UploadBegins(w: Worker, source: seq<byte>, local: u64, nextByte: Option<u64>)
    requires Uploads(w.task, source) && w.phase == Preparing(local) && local <= |source|
    requires nextByte.Some? ==> nextByte.value <= local
    ensures var n := w.task.totalSize;
            && (0 < n ==> Next(w, Some(source), Prepared(PrepareEnv(NoFault, NoHead, Reply(nextByte))))
                          == (w.(phase := Looping(local, n)), Some(source), []))
            && Next(w.(phase := Looping(local, n)), Some(source), Polled(false))
               == (w.(phase := Trying(local, n, 0)), Some(source), [])
            && Next(w.(phase := Trying(local, n, 0)), Some(source), Polled(false))
               == (w.(phase := Sending(local, n, 0)), Some(source), [])
  {}

  /** What a worker looks like once its first chunk has been accepted. */
  function Taken(w: Worker, source: seq<byte>, local: u64): Worker
    requires Uploads(w.task, source) && local < |source|
  {
    var end, n := ChunkEnd(w.task, local), w.task.totalSize;
    w.(phase := Got(ChunkOutcome(end, n, end >= n), n), open := true, accepted := w.accepted + [source[local..end]])
  }

  function ChunkSent(): ChunkEnv {
    ChunkEnv(NoFault, NoResponse, Reply(None))
  }

  lemma UploadSends(w: Worker, source: seq<byte>, local: u64)
    requires Uploads(w.task, source) && local < |source| && w.phase == Sending(local, w.task.totalSize, 0) && !w.open
    ensures var io := TaskIo(Some(source), false);
            && Slices(w.task, io, local, ChunkSent()) == [source[local..ChunkEnd(w.task, local)]]
            && Next(w, Some(source), Attempted(ChunkSent())) == (Taken(w, source, local), Some(source), [])
  {}

  lemma UploadReports(w: Worker, source: seq<byte>, local: u64)
    requires Uploads(w.task, source) && local < |source|
    ensures var end, n := ChunkEnd(w.task, local), w.task.totalSize;
            Next(Taken(w, source, local), Some(source), Reported)
            == (Taken(w, source, local).(phase := if end >= n then Finishing(n) else Looping(end, n)), Some(source),
                [Progress(w.key, end, n)])
  {}

  // ---- a chunk in the system ----

  /** `At`, with the server. */
  ghost predicate NetAt(net0: Net, net: Net, r: nat, w: Worker, log: seq<WorkerEvent>, handled: nat, source: seq<byte>,
                        stopped: bool, remote: Resources, sources: Sources)
  {
    && NetComes(net0, net, remote, sources) && Uploads(w.task, source) && sources(w.key) == source
    && At(net0.sys, net.sys, r, w, log, handled, Some(source), stopped, remote)
  }

  /** A step of an upload worker. */
  lemma NetWorkAt(net0: Net, net: Net, r: nat, w: Worker, log: seq<WorkerEvent>, handled: nat, source: seq<byte>,
                  stopped: bool, i: Input, remote: Resources, sources: Sources)
    returns (net': Net)
    requires NetAt(net0, net, r, w, log, handled, source, stopped, remote, sources)
    requires Fits(w, i) && Sees(i, stopped) && HonestInput(i, remote(w.task.url))
    requires i.Prepared? ==> exists np: Option<u64> ::
               && i == Prepared(PrepareEnv(NoFault, NoHead, Reply(np)))
               && (np.Some? ==> Covers(HeldOf(net, w.key), source, np.value))
    requires i.Attempted? ==> i == Attempted(ChunkSent())
    ensures var (w', _, ev) := Next(w, Some(source), i);
            NetAt(net0, net', r, w', log + ev, handled, source, stopped, remote, sources)
    ensures net'.sys.sched == net.sys.sched && |net'.sys.workers| == |net.sys.workers|
    ensures var io, held := TaskIo(Some(source), w.open), HeldOf(net, w.key);
            var sent := if i.Attempted? then Slices(w.task, io, w.phase.offset, i.chunk) else [];
            HeldOf(net', w.key) == if |sent| == 1 then Store(held, w.phase.offset, sent[0]) else held
  {
    hide Next, Sees, NetComes, At, Slices, Store, Possible, Considerate, Do, SysOk, Covers;
    var n := NetStep(Work(r, i), true);
    AtTop(net0.sys, net.sys, r, w, log, handled, Some(source), stopped, remote);
    WorkAt(net0.sys, net.sys, r, w, log, handled, Some(source), stopped, remote, i);
    WhoWrites(w, Some(source), i);
    NetNext(net0, net, n, remote, sources);
    net' := NetDo(net, n, remote);
  }

  /** A new upload worker prepares and comes to its first attempt. */
  lemma NetBegins(net0: Net, net: Net, r: nat, w: Worker, local: u64, np: Option<u64>, source: seq<byte>,
                  remote: Resources, sources: Sources)
    returns (net': Net)
    requires NetAt(net0, net, r, w, [], 0, source, false, remote, sources)
    requires w.phase == Preparing(local) && local < |source|
    requires np.Some? ==> np.value <= local && Covers(HeldOf(net, w.key), source, np.value)
    ensures NetAt(net0, net', r, w.(phase := Sending(local, w.task.totalSize, 0)), [], 0, source, false, remote,
                  sources)
    ensures HeldOf(net', w.key) == HeldOf(net, w.key)
    ensures net'.sys.sched == net.sys.sched && |net'.sys.workers| == |net.sys.workers|
  {
    hide NetAt, Next, Covers, Store, Slices, HeldOf, Reply, ChunkSent, Uploads;
    var none: seq<WorkerEvent> := [];
    var n := w.task.totalSize;
    assert none + none == none;
    NetAtUploads(net0, net, r, w, [], 0, source, false, remote, sources);
    UploadSize(w.task, source);
    UploadBegins(w, source, local, np);
    var env := PrepareEnv(NoFault, NoHead, Reply(np));
    var net1 := NetWorkAt(net0, net, r, w, none, 0, source, false, Prepared(env), remote, sources);
    var w1 := w.(phase := Looping(local, n));
    var net2 := NetWorkAt(net0, net1, r, w1, none, 0, source, false, Polled(false), remote, sources);
    var w2 := w.(phase := Trying(local, n, 0));
    net' := NetWorkAt(net0, net2, r, w2, none, 0, source, false, Polled(false), remote, sources);
  }

  lemma UploadSize(t: InnerTask, source: seq<byte>)
    requires Uploads(t, source)
    ensures t.totalSize == |source| && t.direction == Upload
  {}

  /** It sends its first chunk and reports it. */
  lemma NetSends(net0: Net, net: Net, r: nat, w: Worker, local: u64, source: seq<byte>, remote: Resources,
                 sources: Sources)
    returns (net': Net, w': Worker)
    requires NetAt(net0, net, r, w, [], 0, source, false, remote, sources)
    requires w.phase == Sending(local, w.task.totalSize, 0) && !w.open && local < |source|
    ensures var end, n := ChunkEnd(w.task, local), w.task.totalSize;
            && 0 <= end <= |source|
            && NetAt(net0, net', r, w', [Progress(w.key, end, n)], 0, source, false, remote, sources)
            && w'.task == w.task && w'.key == w.key && w'.phase == (if end >= n then Finishing(n) else Looping(end, n))
            && HeldOf(net', w.key) == Store(HeldOf(net, w.key), local, source[local..end])
            && net'.sys.sched == net.sys.sched && |net'.sys.workers| == |net.sys.workers|
  {
    hide NetAt, Next, Store, Slices, HeldOf, ChunkSent;
    var none: seq<WorkerEvent> := [];
    NetAtUploads(net0, net, r, w, [], 0, source, false, remote, sources);
    var end, n := ChunkEnd(w.task, local), w.task.totalSize;
    assert none + none == none && none + [Progress(w.key, end, n)] == [Progress(w.key, end, n)];
    UploadSends(w, source, local);
    UploadReports(w, source, local);
    HonestChunk(remote(w.task.url));
    var net1 := NetWorkAt(net0, net, r, w, none, 0, source, false, Attempted(ChunkSent()), remote, sources);
    var w1 := Taken(w, source, local);
    net' := NetWorkAt(net0, net1, r, w1, none, 0, source, false, Reported, remote, sources);
    w' := w1.(phase := if end >= n then Finishing(n) else Looping(end, n));
  }

  lemma HonestChunk(resource: seq<byte>)
    ensures HonestInput(Attempted(ChunkSent()), resource)
  {}

  lemma NetAtUploads(net0: Net, net: Net, r: nat, w: Worker, log: seq<WorkerEvent>, handled: nat, source: seq<byte>,
                     stopped: bool, remote: Resources, sources: Sources)
    requires NetAt(net0, net, r, w, log, handled, source, stopped, remote, sources)
    ensures Uploads(w.task, source) && NetComes(net0, net, remote, sources) && sources(w.key) == source
    ensures At(net0.sys, net.sys, r, w, log, handled, Some(source), stopped, remote)
    ensures Shape(net.sys)
  {
    hide NetComes, Comes;
    AtTop(net0.sys, net.sys, r, w, log, handled, Some(source), stopped, remote);
  }

  // ---- pause and resume ----

  /** `Parked`, with the server. */
  ghost predicate NetParked(net0: Net, net: Net, t: InnerTask, offset: u64, source: seq<byte>, remote: Resources,
                            sources: Sources)
  {
    && NetComes(net0, net, remote, sources) && Uploads(t, source) && sources(t.DedupeKey()) == source
    && Parked(net0.sys, net.sys, t, offset, remote) && t.DedupeKey() in net.sys.sched.pausedSet
    && FileAt(net.sys.files, t.filePath) == Some(source)
  }

  /** An upload that has reported its first chunk is paused, notices, and its stop is heard. */
  lemma NetStops(net0: Net, net: Net, t: InnerTask, w: Worker, offset: u64, source: seq<byte>, remote: Resources,
                 sources: Sources)
    returns (net': Net)
    requires w.task == t && w.key == t.DedupeKey() && w.phase == Looping(offset, t.totalSize)
    requires NetAt(net0, net, 0, w, [Progress(w.key, offset, t.totalSize)], 0, source, false, remote, sources)
    requires Alone(net.sys.sched, t) && |net.sys.workers| == 1 && net.sys.sched.offsets == map[]
    ensures NetParked(net0, net', t, offset, source, remote, sources) && HeldOf(net', w.key) == HeldOf(net, w.key)
  {
    hide At, Alone, Possible, Considerate, Do, Next, InnerTask.DedupeKey, Comes, NetComes, Top, SysOk, Sched.Handle,
         HeldOf;
    var sys0, sys, key, n, file := net0.sys, net.sys, t.DedupeKey(), t.totalSize, Some(source);
    var report, log := [Progress(key, offset, n)], [Progress(key, offset, n), WorkerEvent.Canceled(key)];
    assert report + [WorkerEvent.Canceled(key)] == log;
    AtTop(sys0, sys, 0, w, report, 0, file, false, remote);
    FirstReport(sys.sched, t, report[0]);
    DeliverAt(sys0, sys, 0, w, report, 0, file, false, remote);
    var net1 := NetOther(net0, net, Deliver(0), key, remote, sources);
    PauseAt(sys0, net1.sys, t, w, report, 1, file, remote);
    PauseFiles(net1.sys, t.taskId, remote);
    var net2 := NetOther(net0, net1, Command(Pause(t.taskId)), key, remote, sources);
    StoppedPoll(w, file);
    WorkAt(sys0, net2.sys, 0, w, report, 1, file, true, remote, Polled(true));
    var net3 := NetOther(net0, net2, Work(0, Polled(true)), key, remote, sources);
    AtTop(sys0, net3.sys, 0, w.(phase := Over), log, 1, file, true, remote);
    SettleAt(sys0, net3.sys, t, w.(phase := Over), log, 1, file, remote);
    net' := NetOther(net0, net3, Deliver(0), key, remote, sources);
  }

  /** A parked task that is resumed starts again at once, from where it stands. */
  lemma ResumeStarts(s: Sched, t: InnerTask)
    requires Top(s) && Alone(s, t) && !s.closed && t.DedupeKey() in s.pausedSet && s.active == map[]
    ensures var s', key := Apply(s, Resume(t.taskId)), t.DedupeKey();
            && Alone(s', t) && !s'.closed && s'.offsets == s.offsets && s'.cancelled == s.cancelled
            && s'.spawned == s.spawned + [Run(key, t, s.Offset(key))]
  {
    hide Identity, Tokens, Bounded, WorkConserving, InnerTask.DedupeKey;
    var key := t.DedupeKey();
    NothingActive(key.dir);
    assert s.queued == [] && s.queuedSet == {} by {
      if s.queued != [] {
        assert s.queued[0] in s.queuedSet;
        QueuedIsLive(s, s.queued[0]);
      }
    }
    var s1 := s.ResumeGroup(key).0;
    assert s1.queued == [key];
    var s2 := s1.(queued := [], queuedSet := {});
    assert [key][1..] == [];
    assert s2.ExamineAll([key]) == s2.Examine(key).ExamineAll([]) == s2.Examine(key);
    assert s2.CanStart(key.dir);
  }

  /**
   The server's part of a parked upload stays as it is while the task is resumed; its new worker is the second
   one.
   */
  lemma NetResumes(net0: Net, net: Net, t: InnerTask, offset: u64, source: seq<byte>, remote: Resources,
                   sources: Sources)
    returns (net': Net)
    requires NetParked(net0, net, t, offset, source, remote, sources)
    ensures NetAt(net0, net', 1, NewWorker(t.DedupeKey(), t, offset), [], 0, source, false, remote, sources)
    ensures Alone(net'.sys.sched, t) && HeldOf(net', t.DedupeKey()) == HeldOf(net, t.DedupeKey())
  {
    hide Alone, Possible, Considerate, InnerTask.DedupeKey, Comes, NetComes, Top, Ordered, RunsOk, GroupsReady,
         HeldOf, Apply,
         Spawn, Uploads, Reachable;
    var sys, key, a := net.sys, t.DedupeKey(), Resume(t.taskId);
    NoActiveRuns(sys, remote);
    ResumeStarts(sys.sched, t);
    ResumeCanBeDone(sys, t.taskId, remote);
    ComesNext(net0.sys, sys, Command(a), remote);
    StoppedAreOld(sys.sched);
    net' := NetOther(net0, net, Command(a), key, remote, sources);
    ParkedAt(sys.sched, key, offset);
    SpawnShape(sys, Apply(sys.sched, a));
    SpawnedWorker(sys, Apply(sys.sched, a), 1);
    SpawnSched(sys, Apply(sys.sched, a));
  }

  lemma ParkedAt(s: Sched, key: Key, offset: u64)
    requires s.offsets == map[key := offset]
    ensures s.Offset(key) == offset
  {}

  lemma ResumeCanBeDone(sys: Sys, id: TaskId, remote: Resources)
    requires Shape(sys)
    ensures CanDo(sys, Command(Resume(id)), remote)
  {
    hide Und;
  }

  /** Without an undrained run nothing is active. */
  lemma NoActiveRuns(sys: Sys, remote: Resources)
    requires SysOk(sys, remote) && |sys.workers| == 1 && sys.workers[0].phase.Over? && sys.handled[0] == |sys.logs[0]|
    ensures Shape(sys) && sys.sched.active == map[]
  {
    hide Top, RunsOk, GroupsReady, SeparateFiles;
    assert Und(sys) == {};
    assert sys.sched.active == map[];
  }

  /** The token of a stopped worker is one of a worker that has been started. */
  lemma StoppedAreOld(s: Sched)
    requires Top(s)
    ensures forall r :: r in s.cancelled ==> r < |s.spawned|
  {
    hide QueueMirror, Phases, Identity, Bounded, WorkConserving, CountIn;
  }

  // ---- the two runs ----

  /** A state in which the next delivery tells the callback of `t` that its upload is complete. */
  ghost predicate AboutToComplete(net: Net, r: nat, t: InnerTask, remote: Resources) {
    && Shape(net.sys) && CanDo(net.sys, Deliver(r), remote) && Hears(net.sys, Deliver(r), remote, t.taskId, Complete)
    && Owns(net.sys.sched, t.taskId, t.DedupeKey())
  }

  /** An upload of two chunks up to its first pause. */
  lemma FirstChunk(t: InnerTask, source: seq<byte>, remote: Resources, sources: Sources) returns (net0: Net, net: Net)
    requires Uploads(t, source) && sources(t.DedupeKey()) == source && t.chunkSize < |source|
    ensures net0 == Net(Init(1, 1, map[t.filePath := source]), map[])
    ensures NetParked(net0, net, t, t.chunkSize, source, remote, sources)
    ensures HeldOf(net, t.DedupeKey()) == Store(_ => None, 0, source[0..t.chunkSize])
  {
    hide At, Alone, Considerate, InnerTask.DedupeKey, Comes, NetComes, Top, SysOk, TraceOf, Store, Possible, Do, NetAt,
         NetParked;
    var files, key := map[t.filePath := source], t.DedupeKey();
    net0 := Net(Init(1, 1, files), map[]);
    assert Ready(files, t, remote);
    EnqueueAt(t, files, remote);
    NetStarts(net0, remote, sources);
    var net1 := NetOther(net0, net0, Command(Enqueue(t)), key, remote, sources);
    var w := NewWorker(key, t, 0);
    NetFirst(net0, net1, w, source, remote, sources);
    var net2 := NetBegins(net0, net1, 0, w, 0, None, source, remote, sources);
    var w2 := w.(phase := Sending(0, t.totalSize, 0));
    var net3, w3 := NetSends(net0, net2, 0, w2, 0, source, remote, sources);
    net := NetStops(net0, net3, t, w3, t.chunkSize, source, remote, sources);
  }

  lemma NetFirst(net0: Net, net: Net, w: Worker, source: seq<byte>, remote: Resources, sources: Sources)
    requires NetComes(net0, net, remote, sources) && Uploads(w.task, source) && sources(w.key) == source
    requires At(net0.sys, net.sys, 0, w, [], 0, Some(source), false, remote)
    ensures NetAt(net0, net, 0, w, [], 0, source, false, remote, sources)
  {
    hide NetComes, At;
  }

  /** From its pause to its completion, with a server that says it holds everything before `np`, or nothing. */
  lemma SecondChunk(net0: Net, net: Net, t: InnerTask, np: Option<u64>, source: seq<byte>, remote: Resources,
                    sources: Sources)
    returns (net': Net)
    requires NetParked(net0, net, t, t.chunkSize, source, remote, sources)
    requires t.chunkSize < |source| <= 2 * t.chunkSize
    requires np.Some? ==> np.value <= t.chunkSize && Covers(HeldOf(net, t.DedupeKey()), source, np.value)
    ensures NetComes(net0, net', remote, sources) && AboutToComplete(net', 1, t, remote)
    ensures HeldOf(net', t.DedupeKey()) == Store(HeldOf(net, t.DedupeKey()), t.chunkSize, source[t.chunkSize..])
  {
    hide Alone, Considerate, InnerTask.DedupeKey, Comes, NetComes, Top, SysOk, TraceOf, Store, Possible, Do, NetAt,
         Covers, HeldOf, Next, Parked, At, Sched.Handle, Uploads, AboutToComplete;
    var key, n := t.DedupeKey(), t.totalSize;
    UploadSize(t, source);
    var w := NewWorker(key, t, t.chunkSize);
    var net1 := NetResumes(net0, net, t, t.chunkSize, source, remote, sources);
    var net2 := NetBegins(net0, net1, 1, w, t.chunkSize, np, source, remote, sources);
    var w2 := w.(phase := Sending(t.chunkSize, n, 0));
    var net3, w3 := NetSends(net0, net2, 1, w2, t.chunkSize, source, remote, sources);
    assert ChunkEnd(t, t.chunkSize) == n && source[t.chunkSize..n] == source[t.chunkSize..];
    net' := NetFinishes(net0, net3, t, w3, source, remote, sources);
  }

  lemma FinishStep(w: Worker, file: Option<seq<byte>>, n: u64)
    requires w.phase == Finishing(n)
    ensures Fits(w, Finished) && Next(w, file, Finished) == (w.(phase := Over), file, [Completed(w.key, n)])
  {}

  lemma NetFinishes(net0: Net, net: Net, t: InnerTask, w: Worker, source: seq<byte>, remote: Resources,
                    sources: Sources)
    returns (net': Net)
    requires w.task == t && w.key == t.DedupeKey() && w.phase == Finishing(t.totalSize) && Alone(net.sys.sched, t)
    requires NetAt(net0, net, 1, w, [Progress(w.key, t.totalSize, t.totalSize)], 0, source, false, remote, sources)
    ensures NetComes(net0, net', remote, sources) && AboutToComplete(net', 1, t, remote)
    ensures HeldOf(net', w.key) == HeldOf(net, w.key)
  {
    hide Alone, Considerate, InnerTask.DedupeKey, Comes, NetComes, Top, SysOk, TraceOf, Possible, Do, HeldOf, Next, At,
         Sched.Handle, Uploads, Hears;
    var key, n, file := t.DedupeKey(), t.totalSize, Some(source);
    var report, log := [Progress(key, n, n)], [Progress(key, n, n), Completed(key, n)];
    assert report + [Completed(key, n)] == log;
    FinishStep(w, file, n);
    WorkAt(net0.sys, net.sys, 1, w, report, 0, file, false, remote, Finished);
    var net1 := NetOther(net0, net, Work(1, Finished), key, remote, sources);
    var w1 := w.(phase := Over);
    AtTop(net0.sys, net1.sys, 1, w1, log, 0, file, false, remote);
    DeliverAt(net0.sys, net1.sys, 1, w1, log, 0, file, false, remote);
    FirstReport(net1.sys.sched, t, log[0]);
    net' := NetOther(net0, net1, Deliver(1), key, remote, sources);
    AtTop(net0.sys, net'.sys, 1, w1, log, 1, file, false, remote);
    AloneOwns(net'.sys.sched, t);
    CompleteAt(net0.sys, net'.sys, 1, t, w1, log, 1, file, remote);
    HeardLast(net'.sys, 1, t, remote);
  }

  lemma HeardLast(sys: Sys, r: nat, t: InnerTask, remote: Resources)
    requires Shape(sys) && CanDo(sys, Deliver(r), remote)
    requires TraceOf(Do(sys, Deliver(r), remote).sched.emitted, t.taskId)
             == TraceOf(sys.sched.emitted, t.taskId) + [Complete]
    ensures Hears(sys, Deliver(r), remote, t.taskId, Complete)
  {
    hide TraceOf, Do, Possible, Considerate, Shape;
    var before, after := TraceOf(sys.sched.emitted, t.taskId), TraceOf(Do(sys, Deliver(r), remote).sched.emitted,
                                                                       t.taskId);
    assert after[|before|] == Complete;
  }

  /**
   An upload can complete, with a pause and a resume in between, against a server that is truthful all the time: so
   `CompleteMeansStored` speaks of runs that exist.
   */
  lemma UploadCanComplete(t: InnerTask, source: seq<byte>, remote: Resources, sources: Sources)
    requires Uploads(t, source) && sources(t.DedupeKey()) == source && t.chunkSize < |source| <= 2 * t.chunkSize
    ensures exists net :: NetReachable(net, remote, sources) && AboutToComplete(net, 1, t, remote)
  {
    hide NetComes, NetParked, AboutToComplete, InnerTask.DedupeKey, NetReachable, Covers;
    var net0, net1 := FirstChunk(t, source, remote, sources);
    var net2 := SecondChunk(net0, net1, t, None, source, remote, sources);
    ReachesFrom(net0, map[t.filePath := source], net2, remote, sources);
  }

  lemma ReachesFrom(net0: Net, files: map<string, seq<byte>>, net: Net, remote: Resources, sources: Sources)
    requires net0 == Net(Init(1, 1, files), map[]) && NetComes(net0, net, remote, sources)
    ensures NetReachable(net, remote, sources)
  {
    hide NetLeads;
  }

  /**
   If the server forgets what it held while the upload is paused, and is truthful before and after that, the upload
   resumes from the offset that the scheduler remembers. Its callback hears `Complete` although the server does not
   have the first byte.
   */
  lemma ForgottenIsSkipped(t: InnerTask, source: seq<byte>, remote: Resources, sources: Sources)
    requires Uploads(t, source) && sources(t.DedupeKey()) == source && t.chunkSize < |source| <= 2 * t.chunkSize
    ensures exists net1, net2 ::
              && NetReachable(net1, remote, sources) && NetComes(net1.(held := map[]), net2, remote, sources)
              && AboutToComplete(net2, 1, t, remote)
              && HeldOf(net2, t.DedupeKey())(0) == None && !Covers(HeldOf(net2, t.DedupeKey()), source, |source|)
  {
    hide NetComes, NetParked, AboutToComplete, InnerTask.DedupeKey, NetReachable, Covers, Store;
    var net0, net1 := FirstChunk(t, source, remote, sources);
    ParkedComes(net0, net1, t, t.chunkSize, source, remote, sources);
    ReachesFrom(net0, map[t.filePath := source], net1, remote, sources);
    var forgotten := net1.(held := map[]);
    ParkedAnew(net0, net1, forgotten, t, t.chunkSize, source, remote, sources);
    var net2 := SecondChunk(forgotten, forgotten, t, None, source, remote, sources);
    StoredLater(HeldOf(forgotten, t.DedupeKey()), source, t.chunkSize);
  }

  lemma ParkedComes(net0: Net, net: Net, t: InnerTask, offset: u64, source: seq<byte>, remote: Resources,
                    sources: Sources)
    requires NetParked(net0, net, t, offset, source, remote, sources)
    ensures NetComes(net0, net, remote, sources)
  {
    hide NetComes, Parked;
  }

  /** Seen from now on, whatever the server holds. */
  lemma ParkedAnew(net0: Net, net: Net, net': Net, t: InnerTask, offset: u64, source: seq<byte>, remote: Resources,
                   sources: Sources)
    requires NetParked(net0, net, t, offset, source, remote, sources) && net' == net.(held := net'.held)
    ensures NetParked(net', net', t, offset, source, remote, sources)
  {
    hide NetComes, Comes, SysOk, Alone;
    NetStarts(net', remote, sources);
    ComesFromItself(net.sys, remote);
  }

  lemma StoredLater(held: Held, source: seq<byte>, offset: nat)
    requires 0 < offset < |source| && held(0) == None
    ensures Store(held, offset, source[offset..])(0) == None
    ensures !Covers(Store(held, offset, source[offset..]), source, |source|)
  {}
}
