/** Runs of the system that really happen, built step by step. */
module Scenarios {
  import opened Basics
  import opened Sequences
  import opened SchedulerState
  import opened Invariants
  import opened Runs
  import opened StatusTrace
  import opened HttpClient
  import opened Worker
  import opened WorkerSafety
  import opened Protocol
  import opened System
  import opened EndToEnd
  import opened Offsets
  import opened Orphans
  import opened Leftovers
  import StartOrder
  import CR = ContentRange

  // ---- extending a run ----

  lemma {:induction false} LeadsSnoc(sys0: Sys, steps: seq<Step>, sys: Sys, step: Step, remote: Resources)
    requires Leads(sys0, steps, sys, remote) && Shape(sys) && CanDo(sys, step, remote)
    ensures Leads(sys0, steps + [step], Do(sys, step, remote), remote)
    decreases |steps|
  {
    hide Do, Possible, Considerate, Shape;
    if steps == [] {
      assert ([] + [step])[1..] == [] && (steps + [step])[0] == step;
      assert Leads(Do(sys, step, remote), [], Do(sys, step, remote), remote);
    } else {
      assert (steps + [step])[1..] == steps[1..] + [step];
      LeadsSnoc(Do(sys0, steps[0], remote), steps[1..], sys, step, remote);
    }
  }

  /** `sys` can come out of `sys0`. */
  ghost predicate Comes(sys0: Sys, sys: Sys, remote: Resources) {
    exists steps :: Leads(sys0, steps, sys, remote)
  }

  lemma ComesFromItself(sys: Sys, remote: Resources)
    ensures Comes(sys, sys, remote)
  {
    assert Leads(sys, [], sys, remote);
  }

  lemma ComesNext(sys0: Sys, sys: Sys, step: Step, remote: Resources)
    requires Comes(sys0, sys, remote) && SysOk(sys, remote) && CanDo(sys, step, remote)
    ensures Shape(sys) && Comes(sys0, Do(sys, step, remote), remote) && SysOk(Do(sys, step, remote), remote)
  {
    hide Leads, Do, Possible, Considerate, SysOk;
    OkIsTop(sys, remote);
    var steps :| Leads(sys0, steps, sys, remote);
    LeadsSnoc(sys0, steps, sys, step, remote);
    StepKeepsSysOk(sys, step, remote);
  }

  lemma ComesIsReachable(maxUpload: nat, maxDownload: nat, files: map<string, seq<byte>>, sys: Sys, remote: Resources)
    requires Comes(Init(maxUpload, maxDownload, files), sys, remote)
    ensures Reachable(sys, remote)
  {
    hide Leads;
  }

  /** An open state, come from `sys0`, in which worker `r` has got as far as `w`. */
  ghost predicate At(sys0: Sys, sys: Sys, r: nat, w: Worker, log: seq<WorkerEvent>, handled: nat,
                     file: Option<seq<byte>>,
                     stopped: bool, remote: Resources)
  {
    && Comes(sys0, sys, remote) && SysOk(sys, remote) && !sys.sched.closed
    && r < |sys.workers| && sys.workers[r] == w && sys.logs[r] == log && sys.handled[r] == handled
    && FileAt(sys.files, w.task.filePath) == file && (r in sys.sched.cancelled <==> stopped)
  }

  /** Nothing but one file, and the scheduler not at all, is different. */
  ghost predicate OnlyFile(sys: Sys, sys': Sys, path: string) {
    && sys'.sched == sys.sched && |sys'.workers| == |sys.workers|
    && forall p :: p != path ==> FileAt(sys'.files, p) == FileAt(sys.files, p)
  }

  lemma WorkAt(sys0: Sys, sys: Sys, r: nat, w: Worker, log: seq<WorkerEvent>, handled: nat, file: Option<seq<byte>>,
               stopped: bool,
               remote: Resources, i: Input)
    requires At(sys0, sys, r, w, log, handled, file, stopped, remote)
    requires Fits(w, i) && Sees(i, stopped) && HonestInput(i, remote(w.task.url))
    ensures Shape(sys) && CanDo(sys, Work(r, i), remote)
    ensures var (w', file', ev) := Next(w, file, i);
            var sys' := Do(sys, Work(r, i), remote);
            && At(sys0, sys', r, w', log + ev, handled, file', stopped, remote)
            && w'.task == w.task && w'.key == w.key && OnlyFile(sys, sys', w.task.filePath)
  {
    hide Next, Fits, Sees, HonestInput, Comes, Top, Ordered, RunsOk, GroupsReady;
    ComesNext(sys0, sys, Work(r, i), remote);
    WhoWrites(w, file, i);
    FileStays(w, file, i);
  }

  // ---- deliveries ----

  lemma DeliverAt(sys0: Sys, sys: Sys, r: nat, w: Worker, log: seq<WorkerEvent>, handled: nat, file: Option<seq<byte>>,
                  stopped: bool,
                  remote: Resources)
    requires At(sys0, sys, r, w, log, handled, file, stopped, remote) && handled < |log| && log[handled].Progress?
    ensures Shape(sys) && CanDo(sys, Deliver(r), remote)
    ensures var sys' := Do(sys, Deliver(r), remote);
            && At(sys0, sys', r, w, log, handled + 1, file, stopped, remote)
            && sys'.sched == sys.sched.Handle(log[handled]) && |sys'.workers| == |sys.workers|
            && sys'.files == sys.files
  {
    hide Comes, Top, Ordered, RunsOk, GroupsReady, Apply, Sched.Handle, Spawn;
    var s, e := sys.sched, log[handled];
    var sys1 := sys.(handled := sys.handled[r := sys.handled[r] + 1]);
    ComesNext(sys0, sys, Deliver(r), remote);
    ReportStartsNothing(s, e);
    SpawnSame(sys1, s.Handle(e));
    HandleStops(s, e);
  }

  lemma HandleStops(s: Sched, e: WorkerEvent)
    requires Top(s)
    ensures s.Handle(e).cancelled == s.cancelled
  {
    hide Top, Core, Sched.Handle;
    TopIsCore(s);
    HandleFields(s, e);
  }

  // ---- getting a slice of a download ----

  /** A reply that carries the bytes from `a` to before `b`. */
  function SliceReply(resource: seq<byte>, a: nat, b: nat): GetReply
    requires a < b <= |resource| < U64_LIMIT
  {
    Response(206, Some("bytes " + CR.PrintU64(a) + "-" + CR.PrintU64(b - 1) + "/*"), Some(resource[a..b]))
  }

  lemma SliceReplyParses(resource: seq<byte>, a: nat, b: nat)
    requires a < b <= |resource| < U64_LIMIT
    ensures CR.ParseContentRange(SliceReply(resource, a, b).contentRange.value) == Ok(CR.Range(a, b - 1, None))
  {
    hide CR.ParseContentRange, CR.PrintU64;
    var p := CR.Parts("", "", "", "", "", "", "", "", "", "", "");
    CR.RoundTrip(CR.Range(a, b - 1, None), p);
    assert CR.Render(p.(start := CR.PrintU64(a), end := CR.PrintU64(b - 1), total := "*"))
           == SliceReply(resource, a, b).contentRange.value;
  }

  lemma SliceReplyIsHonest(resource: seq<byte>, a: nat, b: nat)
    requires a < b <= |resource| < U64_LIMIT
    ensures HonestGet(SliceReply(resource, a, b), resource)
    ensures CheckReply(SliceReply(resource, a, b), a, |resource|) == Ok(resource[a..b])
  {
    hide CR.ParseContentRange;
    SliceReplyParses(resource, a, b);
  }

  /** A worker whose file is the first `a` bytes, at its first attempt. */
  lemma SliceAttempt(w: Worker, file: Option<seq<byte>>, resource: seq<byte>, a: nat, b: nat)
    requires IsDownload(w.task) && w.accepted == [] && !w.open && a < b <= |resource| < U64_LIMIT
    requires w.phase == Sending(a, |resource|, 0) && TaskIo(file, false).Content() == resource[..a]
    ensures var n := |resource|;
            Next(w, file, Attempted(ChunkEnv(NoFault, SliceReply(resource, a, b), NoAnswer)))
            == (w.(phase := Got(ChunkOutcome(b, n, b >= n), n), open := true), Some(resource[..b]), [])
  {
    hide CheckReply, SliceReply, WriteAt;
    SliceReplyIsHonest(resource, a, b);
    WriteAtEnd(resource[..a], resource[a..b]);
    assert resource[..a] + resource[a..b] == resource[..b];
    assert w.accepted + [] == w.accepted;
  }

  lemma OtherSteps(w: Worker, file: Option<seq<byte>>, n: u64)
    requires IsDownload(w.task) && |TaskIo(file, false).Content()| <= n && 0 < n
    ensures var a := |TaskIo(file, false).Content()|;
            && Next(w.(phase := Looping(a, n)), file, Polled(false)) == (w.(phase := Trying(a, n, 0)), file, [])
            && Next(w.(phase := Trying(a, n, 0)), file, Polled(false)) == (w.(phase := Sending(a, n, 0)), file, [])
            && forall start: u64 :: w.phase == Preparing(start) ==>
                 Next(w, file, Prepared(PrepareEnv(NoFault, Head(200, Some(n)), NoAnswer)))
                 == (w.(phase := Looping(a, n)), file, [])
  {}

  /** A new worker of a download prepares and comes to its first attempt. */
  lemma CanBegin(sys0: Sys, sys: Sys, r: nat, w: Worker, file: Option<seq<byte>>, a: nat, remote: Resources)
    returns (sys': Sys)
    requires At(sys0, sys, r, w, [], 0, file, false, remote) && IsDownload(w.task) && w.phase.Preparing? && !w.open
    requires w.accepted == []
    requires a <= |remote(w.task.url)| < U64_LIMIT && 0 < |remote(w.task.url)|
    requires TaskIo(file, false).Content() == remote(w.task.url)[..a]
    ensures At(sys0, sys', r, w.(phase := Sending(a, |remote(w.task.url)|, 0)), [], 0, file, false, remote)
    ensures OnlyFile(sys, sys', w.task.filePath)
  {
    hide At, Possible, Considerate, Do, Next, HonestGet, Comes;
    var n := |remote(w.task.url)|;
    var head := PrepareEnv(NoFault, Head(200, Some(n)), NoAnswer);
    var none: seq<WorkerEvent> := [];
    assert none + none == none;
    OtherSteps(w, file, n);
    WorkAt(sys0, sys, r, w, none, 0, file, false, remote, Prepared(head));
    var s1 := Do(sys, Work(r, Prepared(head)), remote);
    WorkAt(sys0, s1, r, w.(phase := Looping(a, n)), none, 0, file, false, remote, Polled(false));
    var s2 := Do(s1, Work(r, Polled(false)), remote);
    WorkAt(sys0, s2, r, w.(phase := Trying(a, n, 0)), none, 0, file, false, remote, Polled(false));
    sys' := Do(s2, Work(r, Polled(false)), remote);
  }

  /** What the worker looks like that has got everything up to `b` and reported it. */
  function Advanced(w: Worker, b: u64, n: u64): Worker {
    w.(phase := if b >= n then Finishing(n) else Looping(b, n), open := true)
  }

  /** What it looks like in between. */
  function Fetched(w: Worker, b: u64, n: u64): Worker {
    w.(phase := Got(ChunkOutcome(b, n, b >= n), n), open := true)
  }

  /** It gets the bytes up to `b`. */
  lemma CanGet(sys0: Sys, sys: Sys, r: nat, w: Worker, file: Option<seq<byte>>, a: nat, b: nat, remote: Resources)
    returns (sys': Sys)
    requires a < b <= |remote(w.task.url)| < U64_LIMIT && IsDownload(w.task) && !w.open && w.accepted == []
    requires w.phase == Sending(a, |remote(w.task.url)|, 0)
    requires At(sys0, sys, r, w, [], 0, file, false, remote)
    requires TaskIo(file, false).Content() == remote(w.task.url)[..a]
    ensures var n := |remote(w.task.url)|;
            At(sys0, sys', r, Fetched(w, b, n), [], 0, Some(remote(w.task.url)[..b]), false, remote)
    ensures OnlyFile(sys, sys', w.task.filePath)
  {
    hide At, Possible, Considerate, Do, Next, HonestGet, SliceReply, Comes, OnlyFile;
    var resource := remote(w.task.url);
    var chunk := ChunkEnv(NoFault, SliceReply(resource, a, b), NoAnswer);
    var none: seq<WorkerEvent> := [];
    assert none + none == none;
    SliceAttempt(w, file, resource, a, b);
    SliceReplyIsHonest(resource, a, b);
    WorkAt(sys0, sys, r, w, none, 0, file, false, remote, Attempted(chunk));
    sys' := Do(sys, Work(r, Attempted(chunk)), remote);
  }

  /** It gets the bytes up to `b` and reports them. */
  lemma CanFetch(sys0: Sys, sys: Sys, r: nat, w: Worker, file: Option<seq<byte>>, a: nat, b: nat, remote: Resources)
    returns (sys': Sys)
    requires a < b <= |remote(w.task.url)| < U64_LIMIT && IsDownload(w.task) && !w.open && w.accepted == []
    requires w.phase == Sending(a, |remote(w.task.url)|, 0)
    requires At(sys0, sys, r, w, [], 0, file, false, remote)
    requires TaskIo(file, false).Content() == remote(w.task.url)[..a]
    ensures var n := |remote(w.task.url)|;
            At(sys0, sys', r, Advanced(w, b, n), [Progress(w.key, b, n)], 0, Some(remote(w.task.url)[..b]), false,
               remote)
    ensures OnlyFile(sys, sys', w.task.filePath)
  {
    hide At, Possible, Considerate, Do, Next, Comes;
    var resource := remote(w.task.url);
    var n := |resource|;
    var none: seq<WorkerEvent> := [];
    assert none + [Progress(w.key, b, n)] == [Progress(w.key, b, n)];
    var sys1 := CanGet(sys0, sys, r, w, file, a, b, remote);
    ReportStep(Fetched(w, b, n), Some(resource[..b]), b, n);
    WorkAt(sys0, sys1, r, Fetched(w, b, n), none, 0, Some(resource[..b]), false, remote, Reported);
    sys' := Do(sys1, Work(r, Reported), remote);
  }

  lemma ReportStep(w: Worker, file: Option<seq<byte>>, b: u64, n: u64)
    requires w.phase == Got(ChunkOutcome(b, n, b >= n), n) && w.open
    ensures Next(w, file, Reported) == (Advanced(w, b, n), file, [Progress(w.key, b, n)])
  {}

  // ---- a task alone in the scheduler ----

  /** `t` is the only task there is, and the only one that ever was; there is one slot in each direction. */
  ghost predicate Alone(s: Sched, t: InnerTask) {
    && s.groups == map[t.DedupeKey() := GroupState(t, t)] && s.taskIdToDedupe == map[t.taskId := t.DedupeKey()]
    && s.maxUpload == 1 && s.maxDownload == 1 && forall e :: e in s.emitted ==> e.to == t.taskId
  }

  lemma AloneOwns(s: Sched, t: InnerTask)
    requires Top(s) && Alone(s, t)
    ensures Owns(s, t.taskId, t.DedupeKey()) && t.DedupeKey() in s.groups
    ensures s.groups[t.DedupeKey()].leader.taskId == s.groups[t.DedupeKey()].entry.taskId == t.taskId
    ensures forall id :: id != t.taskId ==> Fresh(s, id)
  {
    hide QueueMirror, Phases, Tokens, Bounded, WorkConserving, InnerTask.DedupeKey;
  }

  lemma NoTrace(id: TaskId)
    ensures TraceOf([], id) == []
  {}

  lemma NothingActive(d: Direction)
    ensures CountIn(map[], d) == 0
  {
    var none: map<Key, Token> := map[];
    assert (set k | k in none && k.dir == d) == {};
  }

  lemma IdleStart(t: InnerTask)
    ensures var s := New(1, 1).Enqueue(t);
            && s.spawned == [Run(t.DedupeKey(), t, 0)] && s.cancelled == {} && !s.closed && Alone(s, t)
            && s.offsets == map[]
            && TraceOf(s.emitted, t.taskId) == [Pending, Transmission]
  {
    hide InnerTask.DedupeKey, TraceOf;
    var key := t.DedupeKey();
    var s0 := New(1, 1);
    var s1 := s0.Admit(t);
    NothingActive(key.dir);
    assert s1.queued == [key];
    var s2 := s1.(queued := [], queuedSet := {});
    assert [key][1..] == [];
    assert s2.ExamineAll([key]) == s2.Examine(key).ExamineAll([]) == s2.Examine(key);
    assert s2.CanStart(key.dir);
    var e1 := Emission(t.taskId, t.taskId, Pending, 0, t.totalSize);
    var e2 := Emission(t.taskId, t.taskId, Transmission, 0, t.totalSize);
    assert s2.Examine(key).emitted == [e1] + [e2] && [] + [e1] == [e1];
    NoTrace(t.taskId);
    TraceSnoc([], e1, t.taskId);
    TraceSnoc([e1], e2, t.taskId);
  }

  /** Enqueued into an idle scheduler, a task is announced and its worker started at once. */
  lemma EnqueueAt(t: InnerTask, files: map<string, seq<byte>>, remote: Resources)
    requires Ready(files, t, remote)
    ensures var sys0, step := Init(1, 1, files), Command(Enqueue(t));
            && Shape(sys0) && CanDo(sys0, step, remote)
            && var sys := Do(sys0, step, remote);
               && At(sys0, sys, 0, NewWorker(t.DedupeKey(), t, 0), [], 0, FileAt(files, t.filePath), false, remote)
               && Alone(sys.sched, t) && |sys.workers| == 1 && sys.files == files && sys.sched.offsets == map[]
               && TraceOf(sys.sched.emitted, t.taskId) == [Pending, Transmission]
  {
    hide TraceOf, SysOk, Ready, InnerTask.DedupeKey, Sched.Enqueue, Comes;
    var sys0, step := Init(1, 1, files), Command(Enqueue(t));
    InitIsOk(1, 1, files, remote);
    ComesFromItself(sys0, remote);
    IdleStart(t);
    ComesNext(sys0, sys0, step, remote);
    SpawnedWorker(sys0, New(1, 1).Enqueue(t), 0);
    SpawnSched(sys0, New(1, 1).Enqueue(t));
  }

  /** The first report of a task that is alone. */
  lemma FirstReport(s: Sched, t: InnerTask, e: WorkerEvent)
    requires Top(s) && Alone(s, t) && e.Progress? && e.key == t.DedupeKey()
    ensures Alone(s.Handle(e), t) && s.Handle(e).offsets == s.offsets[e.key := e.nextOffset]
    ensures TraceOf(s.Handle(e).emitted, t.taskId) == TraceOf(s.emitted, t.taskId) + [Transmission]
    ensures s.Handle(e).active == s.active && s.Handle(e).pausedSet == s.pausedSet
  {
    hide Top, InnerTask.DedupeKey, TraceOf, CountIn;
    AloneOwns(s, t);
    TraceSnoc(s.emitted, Emission(t.taskId, t.taskId, Transmission, e.nextOffset, e.totalSize), t.taskId);
  }

  // ---- a download that completes ----

  /**
   Every download of a non-empty resource can complete: some run of the system ends with its callback having heard
   exactly `Pending`, two `Transmission`s (started, and the one report) and `Complete`, file copied.
   */
  lemma DownloadCanComplete(t: InnerTask, remote: Resources)
    requires IsDownload(t) && 1 <= t.chunkSize && 0 < |remote(t.url)| < U64_LIMIT
    ensures exists sys :: Reachable(sys, remote) && OnDisk(sys.files, t.filePath) == remote(t.url)
              && TraceOf(sys.sched.emitted, t.taskId) == [Pending, Transmission, Transmission, Complete]
  {
    hide At, Alone, Possible, Considerate, Do, Next, InnerTask.DedupeKey, TraceOf, Comes;
    var n, key, w := |remote(t.url)|, t.DedupeKey(), NewWorker(t.DedupeKey(), t, 0);
    EnqueueAt(t, map[], remote);
    var sys0 := Init(1, 1, map[]);
    var sys1 := Do(sys0, Command(Enqueue(t)), remote);
    var sys2 := CanBegin(sys0, sys1, 0, w, None, 0, remote);
    var sys3 := CanFetch(sys0, sys2, 0, w.(phase := Sending(0, n, 0)), None, 0, n, remote);
    assert remote(t.url)[..n] == remote(t.url);
    var sys4 := CanFinish(sys0, sys3, t, Advanced(w, n, n), remote);
    ComesIsReachable(1, 1, map[], sys4, remote);
  }

  lemma CanFinish(sys0: Sys, sys: Sys, t: InnerTask, w: Worker, remote: Resources) returns (sys': Sys)
    requires w.task == t && w.key == t.DedupeKey() && |remote(t.url)| < U64_LIMIT
    requires w.phase == Finishing(|remote(t.url)|)
    requires At(sys0, sys, 0, w, [Progress(w.key, |remote(t.url)|, |remote(t.url)|)], 0, Some(remote(t.url)), false,
                remote)
    requires Alone(sys.sched, t) && TraceOf(sys.sched.emitted, t.taskId) == [Pending, Transmission]
    ensures Comes(sys0, sys', remote) && OnDisk(sys'.files, t.filePath) == remote(t.url)
    ensures TraceOf(sys'.sched.emitted, t.taskId) == [Pending, Transmission, Transmission, Complete]
  {
    hide At, Alone, Possible, Considerate, Do, InnerTask.DedupeKey, TraceOf, Comes, Top, Sched.Handle;
    var n := |remote(t.url)|;
    var file, report, log := Some(remote(t.url)), [Progress(w.key, n, n)], [Progress(w.key, n, n), Completed(w.key, n)];
    assert report + [Completed(w.key, n)] == log;
    WorkAt(sys0, sys, 0, w, report, 0, file, false, remote, Finished);
    var s1, w1 := Do(sys, Work(0, Finished), remote), w.(phase := Over);
    DeliverAt(sys0, s1, 0, w1, log, 0, file, false, remote);
    var s2 := Do(s1, Deliver(0), remote);
    AtTop(sys0, s1, 0, w1, log, 0, file, false, remote);
    FirstReport(s1.sched, t, log[0]);
    CompleteAt(sys0, s2, 0, t, w1, log, 1, file, remote);
    sys' := Do(s2, Deliver(0), remote);
    assert [Pending, Transmission] + [Transmission] + [Complete] == [Pending, Transmission, Transmission, Complete];
  }

  lemma AtTop(sys0: Sys, sys: Sys, r: nat, w: Worker, log: seq<WorkerEvent>, handled: nat, file: Option<seq<byte>>,
              stopped: bool,
              remote: Resources)
    requires At(sys0, sys, r, w, log, handled, file, stopped, remote)
    ensures Shape(sys) && Top(sys.sched) && !sys.sched.closed && SysOk(sys, remote) && Comes(sys0, sys, remote)
    ensures r < |sys.workers| && sys.workers[r] == w && sys.logs[r] == log && sys.handled[r] == handled
    ensures FileAt(sys.files, w.task.filePath) == file && (r in sys.sched.cancelled <==> stopped)
  {
    hide Top, Ordered, RunsOk, GroupsReady, Comes;
  }

  lemma CompleteAt(sys0: Sys, sys: Sys, r: nat, t: InnerTask, w: Worker, log: seq<WorkerEvent>, handled: nat,
                   file: Option<seq<byte>>,
                   remote: Resources)
    requires At(sys0, sys, r, w, log, handled, file, false, remote) && w.task == t && Alone(sys.sched, t)
    requires handled < |log| && log[handled].key == t.DedupeKey() && log[handled].Completed?
    ensures Shape(sys) && CanDo(sys, Deliver(r), remote)
    ensures var sys' := Do(sys, Deliver(r), remote);
            && Comes(sys0, sys', remote) && FileAt(sys'.files, t.filePath) == file
            && TraceOf(sys'.sched.emitted, t.taskId) == TraceOf(sys.sched.emitted, t.taskId) + [Complete]
  {
    hide TraceOf, Comes, Top, Core, Ordered, RunsOk, GroupsReady, InnerTask.DedupeKey, Apply, Body;
    var s, a := sys.sched, Event(log[handled]);
    ComesNext(sys0, sys, Deliver(r), remote);
    SystemStepTrace(sys, Deliver(r), remote, t.taskId);
    TopIsCore(s);
    AloneOwns(s, t);
    WhoIsLive(s, a, t.taskId);
    assert Direct(s, a, t.taskId) + [] == [Complete];
  }

  // ---- a stale event ----

  /** From an idle scheduler: a download that is alone, and whose worker is at the top of its chunk loop. */
  lemma RunningAlone(t: InnerTask, remote: Resources) returns (sys: Sys)
    requires IsDownload(t) && 1 <= t.chunkSize && 0 < |remote(t.url)| < U64_LIMIT
    ensures Reachable(sys, remote) && SysOk(sys, remote) && !sys.sched.closed && Alone(sys.sched, t)
    ensures |sys.workers| == |sys.logs| == |sys.handled| == 1 && sys.logs[0] == [] && sys.handled[0] == 0
    ensures sys.workers[0] == NewWorker(t.DedupeKey(), t, 0).(phase := Looping(0, |remote(t.url)|))
    ensures Owns(sys.sched, t.taskId, t.DedupeKey()) && forall id :: id != t.taskId ==> Fresh(sys.sched, id)
    ensures t.DedupeKey() in sys.sched.active && sys.sched.active[t.DedupeKey()] == 0
  {
    hide Alone, Possible, Considerate, Do, Next, InnerTask.DedupeKey, Comes, SysOk, Top, Fresh;
    var n, w0 := |remote(t.url)|, NewWorker(t.DedupeKey(), t, 0);
    EnqueueAt(t, map[], remote);
    var sys0 := Init(1, 1, map[]);
    var sys1 := Do(sys0, Command(Enqueue(t)), remote);
    var head := PrepareEnv(NoFault, Head(200, Some(n)), NoAnswer);
    var none: seq<WorkerEvent> := [];
    assert none + none == none;
    OtherSteps(w0, None, n);
    WorkAt(sys0, sys1, 0, w0, none, 0, None, false, remote, Prepared(head));
    sys := Do(sys1, Work(0, Prepared(head)), remote);
    var w := w0.(phase := Looping(0, n));
    AtTop(sys0, sys, 0, w, none, 0, None, false, remote);
    ComesIsReachable(1, 1, map[], sys, remote);
    AloneOwns(sys.sched, t);
    OkIsTop(sys, remote);
    OnlyRun(sys, t, remote);
  }

  /**
   A task's callback hears `Canceled` although nobody cancelled it: its key's last task was cancelled while its worker
   was running, and the key enqueued again before that worker noticed.
   */
  lemma CanceledWithoutCancel(t: InnerTask, t': InnerTask, remote: Resources)
    requires IsDownload(t) && 1 <= t.chunkSize && 0 < |remote(t.url)| < U64_LIMIT
    requires t'.DedupeKey() == t.DedupeKey() && t'.taskId != t.taskId
    ensures exists sys, sys' ::
              && Reachable(sys, remote)
              && GoesAll(sys, [Command(Cancel(t.taskId)), Command(Enqueue(t')), Work(0, Polled(true)), Deliver(0)],
                         sys', remote)
              && var trace := TraceOf(sys'.sched.emitted, t'.taskId);
                 trace != [] && trace[|trace| - 1] == Status.Canceled
  {
    hide Alone, Next, InnerTask.DedupeKey, TraceOf, SysOk, Top, Fresh, Goes, GoesAll, Reachable;
    var sys := RunningAlone(t, remote);
    StoppedPoll(sys.workers[0], FileAt(sys.files, sys.workers[0].task.filePath));
    var sys' := StaleEventEndsNewTask(sys, 0, t.taskId, t', Polled(true), remote);
    OneDelivery(0);
    assert [Command(Cancel(t.taskId)), Command(Enqueue(t')), Work(0, Polled(true))] + Deliveries(0, 1)
           == [Command(Cancel(t.taskId)), Command(Enqueue(t')), Work(0, Polled(true)), Deliver(0)];
  }

  lemma OneDelivery(r: nat)
    ensures Deliveries(r, 1) == [Deliver(r)]
  {
    assert Deliveries(r, 0) == [];
  }

  lemma StoppedPoll(w: Worker, file: Option<seq<byte>>)
    requires w.phase.Looping? || w.phase.Trying?
    ensures Fits(w, Polled(true))
    ensures Next(w, file, Polled(true)) == (w.(phase := Over), file, [WorkerEvent.Canceled(w.key)])
  {}

  /** The only worker, not yet over, is the active one of the only task. */
  lemma OnlyRun(sys: Sys, t: InnerTask, remote: Resources)
    requires SysOk(sys, remote) && Alone(sys.sched, t) && |sys.workers| == 1 && sys.workers[0].key == t.DedupeKey()
    requires !sys.workers[0].phase.Over?
    ensures t.DedupeKey() in sys.sched.active && sys.sched.active[t.DedupeKey()] == 0
  {
    hide Top, RunsOk, GroupsReady, Ordered, InnerTask.DedupeKey;
    LiveRunIsActive(sys, 0, remote);
  }

  // ---- a download that is parked ----

  /** Task `t` is alone, paused at `offset`, and its only worker has stopped and been heard. */
  ghost predicate Parked(sys0: Sys, sys: Sys, t: InnerTask, offset: u64, remote: Resources) {
    && Comes(sys0, sys, remote) && SysOk(sys, remote) && !sys.sched.closed && Alone(sys.sched, t)
    && sys.sched.offsets == map[t.DedupeKey() := offset] && |sys.workers| == 1
    && sys.workers[0].phase.Over? && sys.handled[0] == |sys.logs[0]|
  }

  lemma PauseKeepsTop(s: Sched, key: Key)
    requires Top(s) && key in s.groups
    ensures Top(s.PauseGroup(key))
  {
    hide Core, Keep, Elems, CountIn;
    PauseGroupKeepsCore(s, key);
    PauseQueue(s, key);
    PauseLimits(s, key);
  }

  lemma PauseQueue(s: Sched, key: Key)
    ensures forall k :: k in s.PauseGroup(key).queued ==> k in s.queued
  {
    hide CountIn, Keep;
    KeepElems(s.queued, Elems(s.queued) - {key});
  }

  lemma PauseLimits(s: Sched, key: Key)
    ensures var s' := s.PauseGroup(key);
            && s'.active == s.active && s'.groups == s.groups && s'.maxUpload == s.maxUpload
            && s'.maxDownload == s.maxDownload
            && s'.offsets == s.offsets && s'.spawned == s.spawned && s'.taskIdToDedupe == s.taskIdToDedupe
            && s'.closed == s.closed
            && s'.pausedSet == s.pausedSet + {key}
            && s'.cancelled == s.cancelled + (if key in s.active then {s.active[key]} else {})
            && s'.emitted == s.EmitIfLive(key, Status.Paused).emitted
  {
    hide CountIn, Keep, Elems, Sched.EmitIfLive;
    assert s.cancelled + {} == s.cancelled;
    var s1 := s.Stop(key).Unqueue(key);
    EmitIfLiveOnlyEmits(s1.(pausedSet := s1.pausedSet + {key}), key, Status.Paused);
    EmitIfLiveLooks(s, s1.(pausedSet := s1.pausedSet + {key}), key, Status.Paused);
  }

  /** A record depends on groups and offsets only. */
  lemma EmitIfLiveLooks(s: Sched, s': Sched, key: Key, status: Status)
    requires s'.groups == s.groups && s'.offsets == s.offsets && s'.emitted == s.emitted
    ensures s'.EmitIfLive(key, status).emitted == s.EmitIfLive(key, status).emitted
  {
    hide CountIn;
  }

  /** Pausing frees no slot, so it starts nothing. */
  lemma PauseIs(s: Sched, id: TaskId, key: Key)
    requires Top(s) && !s.closed && Owns(s, id, key)
    ensures key in s.groups && Apply(s, Pause(id)) == s.PauseGroup(key)
  {
    hide Top, Core, Sched.PauseGroup, Sched.TryStart;
    OwnerIsLive(s, id, key);
    PauseKeepsTop(s, key);
    StartOrder.SecondRoundStartsNothing(s.PauseGroup(key));
  }

  lemma PauseKeepsAlone(s: Sched, t: InnerTask)
    requires Top(s) && Alone(s, t)
    ensures Alone(s.PauseGroup(t.DedupeKey()), t)
  {
    hide Top, Sched.PauseGroup, InnerTask.DedupeKey;
    AloneOwns(s, t);
    PauseLimits(s, t.DedupeKey());
  }

  lemma PauseAt(sys0: Sys, sys: Sys, t: InnerTask, w: Worker, log: seq<WorkerEvent>, handled: nat,
                file: Option<seq<byte>>,
                remote: Resources)
    requires At(sys0, sys, 0, w, log, handled, file, false, remote) && Alone(sys.sched, t) && |sys.workers| == 1
    requires w.key == t.DedupeKey() && !w.phase.Over?
    ensures Shape(sys) && CanDo(sys, Command(Pause(t.taskId)), remote)
    ensures var sys' := Do(sys, Command(Pause(t.taskId)), remote);
            && At(sys0, sys', 0, w, log, handled, file, true, remote) && Alone(sys'.sched, t) && |sys'.workers| == 1
            && sys'.sched.offsets == sys.sched.offsets && t.DedupeKey() in sys'.sched.pausedSet
  {
    hide Comes, Top, Ordered, RunsOk, GroupsReady, Apply, Sched.PauseGroup, Spawn, InnerTask.DedupeKey, Alone;
    var s, key := sys.sched, t.DedupeKey();
    ComesNext(sys0, sys, Command(Pause(t.taskId)), remote);
    AloneOwns(s, t);
    OnlyRun(sys, t, remote);
    PauseIs(s, t.taskId, key);
    PauseLimits(s, key);
    PauseKeepsAlone(s, t);
    SpawnSame(sys, s.PauseGroup(key));
  }

  /** A paused worker's stop is heard: the task stays, without a worker. */
  lemma SettleAt(sys0: Sys, sys: Sys, t: InnerTask, w: Worker, log: seq<WorkerEvent>, handled: nat,
                 file: Option<seq<byte>>,
                 remote: Resources)
    requires At(sys0, sys, 0, w, log, handled, file, true, remote) && Alone(sys.sched, t) && |sys.workers| == 1
    requires handled + 1 == |log| && log[handled] == WorkerEvent.Canceled(t.DedupeKey()) && w.phase.Over?
    requires t.DedupeKey() in sys.sched.pausedSet
    ensures Shape(sys) && CanDo(sys, Deliver(0), remote)
    ensures var sys' := Do(sys, Deliver(0), remote);
            && Comes(sys0, sys', remote) && SysOk(sys', remote) && !sys'.sched.closed && Alone(sys'.sched, t)
            && sys'.sched.offsets == sys.sched.offsets && sys'.files == sys.files
            && t.DedupeKey() in sys'.sched.pausedSet
            && |sys'.workers| == 1 && sys'.workers[0].phase.Over? && sys'.handled[0] == |sys'.logs[0]|
  {
    hide Comes, Top, Ordered, RunsOk, GroupsReady, Apply, Sched.Handle, Spawn, InnerTask.DedupeKey, Alone;
    var s, e := sys.sched, log[handled];
    ComesNext(sys0, sys, Deliver(0), remote);
    SettleIs(s, t, e);
    SpawnSame(sys.(handled := sys.handled[0 := handled + 1]), s.Handle(e));
  }

  lemma SettleIs(s: Sched, t: InnerTask, e: WorkerEvent)
    requires Top(s) && !s.closed && Alone(s, t) && e == WorkerEvent.Canceled(t.DedupeKey()) && e.key in s.pausedSet
    ensures Apply(s, Event(e)) == s.Handle(e) && s.Handle(e).spawned == s.spawned && s.Handle(e).offsets == s.offsets
    ensures Alone(s.Handle(e), t) && !s.Handle(e).closed && s.Handle(e).pausedSet == s.pausedSet
  {
    hide Identity, Tokens, Bounded, WorkConserving, CountIn, InnerTask.DedupeKey;
    assert s.queued == [] by {
      if s.queued != [] {
        assert s.queued[0] in s.queuedSet;
        QueuedIsLive(s, s.queued[0]);
      }
    }
    NothingQueued(s.Handle(e));
  }

  lemma QueuedIsLive(s: Sched, k: Key)
    requires Top(s) && k in s.queued
    ensures k in s.groups && k !in s.pausedSet
  {
    hide Identity, Tokens, Bounded, CountIn;
  }

  lemma NothingQueued(s: Sched)
    requires s.queued == [] && s.queuedSet == {}
    ensures s.TryStart() == s
  {}

  /** It is paused after its first report, notices, and its stop is heard. */
  lemma CanStop(sys0: Sys, sys: Sys, t: InnerTask, w: Worker, offset: u64, n: u64, file: Option<seq<byte>>,
                remote: Resources)
    returns (sys': Sys)
    requires w.task == t && w.key == t.DedupeKey() && w.phase == Looping(offset, n)
    requires At(sys0, sys, 0, w, [Progress(w.key, offset, n)], 0, file, false, remote)
    requires Alone(sys.sched, t) && |sys.workers| == 1 && sys.sched.offsets == map[]
    ensures Parked(sys0, sys', t, offset, remote) && t.DedupeKey() in sys'.sched.pausedSet
    ensures FileAt(sys'.files, t.filePath) == file
    ensures forall p :: p != t.filePath ==> FileAt(sys'.files, p) == FileAt(sys.files, p)
  {
    hide At, Alone, Possible, Considerate, Do, Next, InnerTask.DedupeKey, Comes, Top, SysOk, Sched.Handle;
    var key := t.DedupeKey();
    var report, log := [Progress(key, offset, n)], [Progress(key, offset, n), WorkerEvent.Canceled(key)];
    assert report + [WorkerEvent.Canceled(key)] == log;
    AtTop(sys0, sys, 0, w, report, 0, file, false, remote);
    FirstReport(sys.sched, t, report[0]);
    DeliverAt(sys0, sys, 0, w, report, 0, file, false, remote);
    var s1 := Do(sys, Deliver(0), remote);
    PauseAt(sys0, s1, t, w, report, 1, file, remote);
    PauseFiles(s1, t.taskId, remote);
    var s2 := Do(s1, Command(Pause(t.taskId)), remote);
    StoppedPoll(w, file);
    WorkAt(sys0, s2, 0, w, report, 1, file, true, remote, Polled(true));
    var s3 := Do(s2, Work(0, Polled(true)), remote);
    AtTop(sys0, s3, 0, w.(phase := Over), log, 1, file, true, remote);
    SettleAt(sys0, s3, t, w.(phase := Over), log, 1, file, remote);
    sys' := Do(s3, Deliver(0), remote);
  }

  lemma PauseFiles(sys: Sys, id: TaskId, remote: Resources)
    requires Shape(sys) && Possible(sys, Command(Pause(id)), remote)
    ensures Do(sys, Command(Pause(id)), remote).files == sys.files
  {
    hide Apply;
    SpawnSched(sys, Apply(sys.sched, Pause(id)));
  }

  /** A download can be paused after any number of bytes, with nothing else on disk. */
  lemma CanPark(t: InnerTask, offset: nat, remote: Resources) returns (sys: Sys)
    requires IsDownload(t) && 1 <= t.chunkSize && 0 < offset < |remote(t.url)| < U64_LIMIT
    ensures Parked(Init(1, 1, map[]), sys, t, offset, remote)
    ensures forall p :: p != t.filePath ==> FileAt(sys.files, p) == None
  {
    hide At, Alone, Possible, Considerate, Do, Next, InnerTask.DedupeKey, TraceOf, Comes, Top, SysOk, Sched.Handle;
    var n, w := |remote(t.url)|, NewWorker(t.DedupeKey(), t, 0);
    var sys0 := Init(1, 1, map[]);
    EnqueueAt(t, map[], remote);
    var sys1 := Do(sys0, Command(Enqueue(t)), remote);
    var sys2 := CanBegin(sys0, sys1, 0, w, None, 0, remote);
    var sys3 := CanFetch(sys0, sys2, 0, w.(phase := Sending(0, n, 0)), None, 0, offset, remote);
    sys := CanStop(sys0, sys3, t, Advanced(w, offset, n), offset, n, Some(remote(t.url)[..offset]), remote);
  }
}
