/** What a download makes of a file that was there before, whatever was in it. */
module LocalFile {
  import opened Basics
  import opened HttpClient
  import opened Worker
  import opened WorkerSafety
  import opened WorkerTermination
  import CR = ContentRange

  /** The resource with its beginning replaced by what was there. */
  function Grafted(original: seq<byte>, resource: seq<byte>): seq<byte>
    requires |original| <= |resource|
  {
    original + resource[|original|..]
  }

  /** Beyond the original, an honest reply is as good for the one as for the other. */
  lemma HonestBeyond(get: GetReply, offset: u64, original: seq<byte>, resource: seq<byte>)
    requires HonestGet(get, resource) && |original| <= offset && |original| <= |resource|
    ensures HonestAt(get, offset, Grafted(original, resource))
  {
    hide CR.ParseContentRange;
    var grafted := Grafted(original, resource);
    assert forall p :: |original| <= p < |resource| ==> grafted[p] == resource[p];
    if get.Response? && get.contentRange.Some? {
      ParseError(get.contentRange.value);
    }
    if get.Response? && get.contentRange.Some? && CR.ParseContentRange(get.contentRange.value).Ok? {
      var range := CR.ParseContentRange(get.contentRange.value).value;
      if range.start == offset <= range.end < |resource| {
        assert grafted[offset..range.end + 1] == resource[offset..range.end + 1];
      }
    }
  }

  /** A worker that has begun: a copy of the grafted resource is on its way, and the original is still its beginning. */
  ghost predicate Grafting(w: Worker, file: Option<seq<byte>>, original: seq<byte>, resource: seq<byte>,
                           log: seq<WorkerEvent>) {
    && |original| <= |resource|
    && WorkerOk(w, file, Grafted(original, resource)) && LogOk(w, log)
    && CopiedOk(w, file, log, Grafted(original, resource))
    && (!w.phase.Over? ==> |original| <= |TaskIo(file, w.open).Content()|)
  }

  lemma StepKeepsGrafting(w: Worker, file: Option<seq<byte>>, i: Input, original: seq<byte>, resource: seq<byte>,
                          log: seq<WorkerEvent>)
    requires w.task.direction == Download && Fits(w, i) && HonestInput(i, resource) && !w.phase.Preparing?
    requires Grafting(w, file, original, resource, log)
    ensures var (w', file', ev) := Next(w, file, i); Grafting(w', file', original, resource, log + ev)
  {
    hide Next, Fits, WorkerOk, LogOk, CopiedOk, HonestFor, HonestInput, Grafted;
    var grafted := Grafted(original, resource);
    OverEnds(w, i);
    HonestStep(w, file, i, original, resource);
    StepForKeepsOk(w, file, i, grafted);
    StepForKeepsLog(w, file, i, grafted, log);
    StepKeepsCopied(w, file, i, grafted, log);
    KeepsLength(w, file, i, grafted);
  }

  lemma HonestStep(w: Worker, file: Option<seq<byte>>, i: Input, original: seq<byte>, resource: seq<byte>)
    requires w.task.direction == Download && Fits(w, i) && HonestInput(i, resource) && !w.phase.Preparing?
    requires |original| <= |resource| && WorkerOk(w, file, Grafted(original, resource))
    requires |original| <= |TaskIo(file, w.open).Content()|
    ensures HonestFor(w, i, Grafted(original, resource))
  {
    hide HonestGet, HonestAt, Grafted;
    if i.Attempted? {
      HonestBeyond(i.chunk.get, w.phase.offset, original, resource);
    }
  }

  /** As long as the worker goes on, its file does not get shorter. */
  lemma KeepsLength(w: Worker, file: Option<seq<byte>>, i: Input, resource: seq<byte>)
    requires w.task.direction == Download && Fits(w, i) && HonestFor(w, i, resource) && !w.phase.Preparing?
    requires WorkerOk(w, file, resource)
    ensures var (w', file', _) := Next(w, file, i);
            !w'.phase.Over? ==> |TaskIo(file, w.open).Content()| <= |TaskIo(file', w'.open).Content()|
  {
    hide UploadChunk, DownloadChunk, HonestAt, HonestHead, Prepare, Slices;
    if i.Attempted? {
      AttemptAtKeepsOk(w, file, i.chunk, resource);
    } else {
      WhoWrites(w, file, i);
    }
  }

  /** A successful prepare: the original is not longer than the resource. */
  lemma PrepareGrafts(w: Worker, file: Option<seq<byte>>, i: Input, resource: seq<byte>)
    requires w.task.direction == Download && 1 <= w.task.chunkSize && w.phase.Preparing? && !w.open
    requires Fits(w, i) && HonestInput(i, resource)
    ensures var (w', file', ev) := Next(w, file, i);
            && file' == file && w'.task == w.task && (forall e :: e in ev ==> !e.Completed?)
            && if w'.phase.Over? then true
               else !w'.phase.Preparing? && Grafting(w', file', TaskIo(file, false).Content(), resource, ev)
  {
    var original := TaskIo(file, false).Content();
    if |original| <= |resource| {
      assert Grafted(original, resource)[..|original|] == original;
    }
  }

  /** A run either has not got beyond prepare, or is grafting. */
  lemma {:induction false} RunGrafts(w: Worker, file: Option<seq<byte>>, inputs: seq<Input>, resource: seq<byte>)
    requires w.task.direction == Download && 1 <= w.task.chunkSize && w.phase.Preparing? && !w.open
    requires FitsAll(w, file, inputs) && HonestAll(inputs, resource)
    ensures var (w', file', log) := Replay(w, file, inputs);
            && w'.task == w.task
            && if inputs == [] then w' == w && file' == file && log == []
               else if w'.phase.Over? && (forall e :: e in log ==> !e.Completed?) then true
               else !w'.phase.Preparing? && Grafting(w', file', TaskIo(file, false).Content(), resource, log)
    decreases |inputs|
  {
    hide Next, Grafting, HonestInput, Fits;
    if inputs != [] {
      var n := |inputs| - 1;
      var (w1, file1, log) := Replay(w, file, inputs[..n]);
      RunGrafts(w, file, inputs[..n], resource);
      WhoWrites(w1, file1, inputs[n]);
      if n == 0 {
        assert inputs[..n] == [] && log + Next(w1, file1, inputs[n]).2 == Next(w1, file1, inputs[n]).2;
        PrepareGrafts(w, file, inputs[n], resource);
      } else {
        OverEnds(w1, inputs[n]);
        StepKeepsGrafting(w1, file1, inputs[n], TaskIo(file, false).Content(), resource, log);
        NeverPreparesAgain(w1, file1, inputs[n]);
      }
    }
  }

  lemma NeverPreparesAgain(w: Worker, file: Option<seq<byte>>, i: Input)
    requires Fits(w, i)
    ensures !Next(w, file, i).0.phase.Preparing?
  {
    hide Prepare, TransferChunk, Slices;
  }

  /**
   A download that reports `Completed` has kept what was in its file and got the rest from the server. So the file is
   the resource iff it had a beginning of the resource in it, or nothing, when the download began.
   */
  lemma CompletedIffBeginning(key: Key, task: InnerTask, start: u64, file: Option<seq<byte>>, inputs: seq<Input>,
                              resource: seq<byte>)
    requires task.direction == Download && 1 <= task.chunkSize && HonestAll(inputs, resource)
    requires FitsAll(NewWorker(key, task, start), file, inputs)
    requires var log := Replay(NewWorker(key, task, start), file, inputs).2; log != [] && log[|log| - 1].Completed?
    ensures var original := TaskIo(file, false).Content();
            var final := TaskIo(Replay(NewWorker(key, task, start), file, inputs).1, false).Content();
            && |original| <= |resource| && final == Grafted(original, resource)
            && (final == resource <==> original <= resource)
  {
    hide FitsAll, Replay, HonestAll, Grafting, Grafted;
    var w0 := NewWorker(key, task, start);
    RunGrafts(w0, file, inputs, resource);
    var (w, file', log) := Replay(w0, file, inputs);
    var original := TaskIo(file, false).Content();
    assert log[|log| - 1] in log;
    GraftingEnds(w, file', original, resource, log);
    GraftedIs(original, resource);
  }

  lemma GraftingEnds(w: Worker, file: Option<seq<byte>>, original: seq<byte>, resource: seq<byte>,
                     log: seq<WorkerEvent>)
    requires Grafting(w, file, original, resource, log) && w.task.direction == Download
    requires log != [] && log[|log| - 1].Completed?
    ensures |original| <= |resource| && TaskIo(file, false).Content() == Grafted(original, resource)
  {
    hide WorkerOk, LogOk, Grafted;
    CompletedIsOver(w, log);
  }

  lemma GraftedIs(original: seq<byte>, resource: seq<byte>)
    requires |original| <= |resource|
    ensures Grafted(original, resource) == resource <==> original <= resource
  {
    if Grafted(original, resource) == resource {
      assert resource[..|original|] == original;
    }
    if original <= resource {
      assert original == resource[..|original|];
    }
  }
}
