/** Runs in which nothing fails and nothing interferes: in whatever order their steps are taken, they
    come to an end, with a finalized marker on disk. */
module ProtocolCalm {
  import opened Json
  import opened Marker
  import opened MarkerFacts
  import opened Protocol
  import opened ProtocolInv
  import opened ProtocolTheorems
  import ProtocolCounts
  import Pipeline
  import PipelineProofs

  // ---- Steps in which nothing fails ----

  /** For every published checksum there are bytes that have it. */
  ghost predicate Attainable(cfg: Config, published: Option<map<FileName, Hash>>) {
    published.Some? ==>
      forall f :: f in published.value ==> exists bytes: Bytes :: cfg.hash(bytes) == published.value[f]
  }

  predicate Fits(cfg: Config, published: Option<map<FileName, Hash>>, file: FileName, bytes: Bytes) {
    published.Some? && file in published.value ==> cfg.hash(bytes) == published.value[file]
  }

  ghost predicate CalmDownload(cfg: Config, s: State, step: DownloadStep) {
    match step
    case StartDownloads(published, _) => Attainable(cfg, published)
    case FetchOk(bytes) => s.pc.Fetching? && s.pc.i < |cfg.files| && Fits(cfg, s.published, cfg.files[s.pc.i], bytes)
    case FetchPartial(_) => false
    case RejectFile(_) => false
    case SaveMetadata => false
    case _ => true
  }

  predicate CalmTask(step: TaskStep) {
    match step
    case Start(saved) => saved
    case Complete(saved) => saved
    case Pipe(action) => action.action != Pipeline.Fail
    case _ => step.Admit? || step.Announce?
  }

  predicate CalmFinish(step: FinishStep) {
    step.Connect? || step.Publish? ==> step.ok
  }

  /** A step of a run that succeeds and gets it further. Saves whose failure is only logged may also
      fail here. A listing that finds no dumps ends the run at once, and is not among these. */
  ghost predicate Calm(cfg: Config, s: State, step: Step) {
    match step
    case Outside(_) => false
    case Loop(loop) => loop.ListOk?
    case Download(download) => CalmDownload(cfg, s, download)
    case File(_, task) => CalmTask(task)
    case Finish(finish) => CalmFinish(finish)
  }

  // ---- Runs in which nothing has failed ----

  predicate WellTask(t: Task) {
    match t
    case Skipped => false
    case Failing(_) => false
    case Active(a) => Pipeline.NoneFailed(a.pipe)
    case _ => true
  }

  ghost predicate Undisturbed(cfg: Config, s: State) {
    && (s.pc.Listing? || Holding(s.pc)) && !s.shutdown
    && s.pc != Finalizing(false) && (s.pc.Broadcasting? ==> !s.pc.failed)
    && (s.pc.Listing? || s.pc.Opening? || Attainable(cfg, s.published))
    && (s.pc.Fetched? && s.pc.i < |cfg.files| ==> MatchesPublished(s, cfg.files[s.pc.i]))
    && (forall f :: f in s.tasks ==> WellTask(s.tasks[f]))
  }

  ghost predicate Going(cfg: Config, s: State) {
    Inv(cfg, s) && Undisturbed(cfg, s)
  }

  ghost predicate Committed(s: State) {
    s.durable.Some? && s.durable.value.overall == Completed
  }

  /** The run has returned, with a finalized marker on disk. */
  ghost predicate Finished(s: State) {
    Committed(s) && (s.pc == Down || s.pc == Parked)
  }

  // ---- How much is left ----

  function Phase(pc: Pc): nat {
    match pc
    case Listing(_) => 14
    case Opening => 13
    case Checking(_) => 12
    case Fetching(_) => 12
    case Fetched(_) => 12
    case Closing => 11
    case Downloaded => 10
    case Starting => 9
    case Ready => 8
    case Processing => 7
    case Finalizing(_) => 6
    case Connecting => 5
    case Broadcasting(_, _) => 4
    case Committing => 3
    case _ => 0
  }

  /** The sum of a weight over the tasks of these files. */
  function Weight(tasks: map<FileName, Task>, files: seq<FileName>, weight: Task -> nat): nat {
    if files == [] then 0
    else (if files[0] in tasks then weight(tasks[files[0]]) else 0) + Weight(tasks, files[1..], weight)
  }

  function Unstarted(t: Task): nat {
    if t.Queued? then 2 else if t.Admitted? then 1 else 0
  }

  function Remaining(t: Task): nat {
    match t
    case Active(a) => 2 + PipelineProofs.Work(a.pipe)
    case Announced(_) => 1
    case _ => 0
  }

  function FilesLeft(cfg: Config, i: nat): nat {
    if i <= |cfg.files| then |cfg.files| - i else 0
  }

  /** Within a phase: files to download, tasks to start, exchanges to reach. */
  function Early(cfg: Config, s: State): nat {
    match s.pc
    case Checking(i) => 3 * FilesLeft(cfg, i) + 2
    case Fetching(i) => 3 * FilesLeft(cfg, i) + 1
    case Fetched(i) => 3 * FilesLeft(cfg, i)
    case Processing => Weight(s.tasks, cfg.files, Unstarted)
    case Broadcasting(k, _) => if k <= |EXCHANGES| then |EXCHANGES| - k else 0
    case _ => 0
  }

  /** And then: what the pipelines of the started tasks have to do. */
  function Late(cfg: Config, s: State): nat {
    if s.pc.Processing? then Weight(s.tasks, cfg.files, Remaining) else 0
  }

  /** The later state has less left, in the lexicographic order of the three numbers. */
  predicate Falls(cfg: Config, s: State, t: State) {
    || Phase(t.pc) < Phase(s.pc)
    || (Phase(t.pc) == Phase(s.pc) && Early(cfg, t) < Early(cfg, s))
    || (Phase(t.pc) == Phase(s.pc) && Early(cfg, t) == Early(cfg, s) && Late(cfg, t) < Late(cfg, s))
  }

  /** A calm step's outcome: the run goes on with less left, or it has returned and the marker is
      finalized on disk. */
  ghost predicate Advances(cfg: Config, s: State, t: State) {
    Finished(t) || (Undisturbed(cfg, t) && Falls(cfg, s, t))
  }

  // ---- Choosing the marker ----

  /** Only a finalized marker that is on disk is skipped. */
  lemma SkipMeansCommitted(s: State, force: bool, readable: bool)
    requires Decide(OpenMarker(s, force, readable).memory) == Decision.Skip
    ensures Committed(s)
  {
  }

  lemma OpenStays(s: State, force: bool, readable: bool)
    ensures var t := OpenMarker(s, force, readable);
            t.shutdown == s.shutdown && t.tasks == s.tasks && t.durable == s.durable
  {
    NewStays(s, Forced);
    NewStays(s, Absent);
    NewStays(s, Unreadable);
  }

  lemma NewStays(s: State, origin: Origin)
    ensures var t := NewMarker(s, origin); t.shutdown == s.shutdown && t.tasks == s.tasks && t.durable == s.durable
  {
  }

  lemma DecidedOpens(s: State)
    requires Decide(s.memory) != Decision.Skip
    ensures Decided(s).pc == Opening && Decided(s).shutdown == s.shutdown && Decided(s).tasks == s.tasks
  {
  }

  lemma EndRunFinishes(s: State, outcome: Outcome)
    requires Committed(s)
    ensures Finished(EndRun(s, outcome))
  {
  }

  lemma ListAdvances(cfg: Config, s: State, readable: bool)
    requires Undisturbed(cfg, s) && s.pc.Listing? && s.tasks == map[]
    ensures LoopNext(s, ListOk(readable)).Some? && Advances(cfg, s, LoopNext(s, ListOk(readable)).value)
  {
    var chosen := OpenMarker(s, s.pc.force, readable);
    OpenStays(s, s.pc.force, readable);
    if Decide(chosen.memory) == Decision.Skip {
      SkipMeansCommitted(s, s.pc.force, readable);
    }
    DecidedAdvances(cfg, s, chosen);
  }

  lemma DecidedAdvances(cfg: Config, s: State, chosen: State)
    requires s.pc.Listing? && !chosen.shutdown && chosen.tasks == map[]
    requires Decide(chosen.memory) == Decision.Skip ==> Committed(chosen)
    ensures Advances(cfg, s, Decided(chosen))
  {
    if Decide(chosen.memory) == Decision.Skip {
      SkipFinishes(chosen);
    } else {
      DecidedOpens(chosen);
      OpenedAdvances(cfg, s, Decided(chosen));
    }
  }

  lemma SkipFinishes(s: State)
    requires Committed(s) && Decide(s.memory) == Decision.Skip
    ensures Finished(Decided(s))
  {
    EndRunFinishes(s.(status := Succeeded), OkTrue);
  }

  lemma OpenedAdvances(cfg: Config, s: State, t: State)
    requires s.pc.Listing? && t.pc == Opening && !t.shutdown && t.tasks == map[]
    ensures Advances(cfg, s, t)
  {
  }

  // ---- Downloads ----

  /** The step is about the files on disk alone. */
  predicate Steady(s: State, t: State) {
    t.shutdown == s.shutdown && t.tasks == s.tasks && t.published == s.published
  }

  lemma OpeningAdvances(cfg: Config, s: State, published: Option<map<FileName, Hash>>, saved: bool)
    requires Undisturbed(cfg, s) && s.pc == Opening && s.tasks == map[] && Attainable(cfg, published)
    ensures DownloadNext(cfg, s, StartDownloads(published, saved)).Some?
    ensures Advances(cfg, s, DownloadNext(cfg, s, StartDownloads(published, saved)).value)
  {
  }

  lemma KeepWhere(cfg: Config, s: State, saved: bool)
    requires s.pc.Checking? && s.pc.i < |cfg.files| && !NeedsDownload(cfg, s, cfg.files[s.pc.i])
    ensures DownloadNext(cfg, s, KeepFile(saved)).Some?
    ensures var t := DownloadNext(cfg, s, KeepFile(saved)).value; t.pc == Checking(s.pc.i + 1) && Steady(s, t)
  {
  }

  lemma FetchStartWhere(cfg: Config, s: State, saved: bool)
    requires s.pc.Checking? && s.pc.i < |cfg.files| && NeedsDownload(cfg, s, cfg.files[s.pc.i])
    ensures DownloadNext(cfg, s, FetchStart(saved)).Some?
    ensures var t := DownloadNext(cfg, s, FetchStart(saved)).value; t.pc == Fetching(s.pc.i) && Steady(s, t)
  {
  }

  lemma FetchWhere(cfg: Config, s: State, bytes: Bytes)
    requires s.pc.Fetching? && s.pc.i < |cfg.files| && Fits(cfg, s.published, cfg.files[s.pc.i], bytes)
    ensures DownloadNext(cfg, s, FetchOk(bytes)).Some?
    ensures var t := DownloadNext(cfg, s, FetchOk(bytes)).value;
            t.pc == Protocol.Fetched(s.pc.i) && Steady(s, t) && MatchesPublished(t, cfg.files[s.pc.i])
  {
  }

  lemma AcceptWhere(cfg: Config, s: State, saved: bool)
    requires s.pc.Fetched? && s.pc.i < |cfg.files| && MatchesPublished(s, cfg.files[s.pc.i])
    ensures DownloadNext(cfg, s, AcceptFile(saved)).Some?
    ensures var t := DownloadNext(cfg, s, AcceptFile(saved)).value; t.pc == Checking(s.pc.i + 1) && Steady(s, t)
  {
  }

  lemma FinishWhere(cfg: Config, s: State, saved: bool)
    requires s.pc == Checking(|cfg.files|)
    ensures DownloadNext(cfg, s, FinishDownloads(saved)).Some?
    ensures var t := DownloadNext(cfg, s, FinishDownloads(saved)).value; t.pc == Closing && Steady(s, t)
  {
  }

  lemma CloseWhere(cfg: Config, s: State)
    requires s.pc == Closing
    ensures DownloadNext(cfg, s, DownloadsOk).Some?
    ensures var t := DownloadNext(cfg, s, DownloadsOk).value; t.pc == Protocol.Downloaded && Steady(s, t)
  {
  }

  lemma SteadyAdvances(cfg: Config, s: State, t: State)
    requires Undisturbed(cfg, s) && Steady(s, t) && Falls(cfg, s, t) && !s.pc.Listing? && !s.pc.Opening?
    requires Holding(t.pc) && t.pc != Finalizing(false) && (t.pc.Broadcasting? ==> !t.pc.failed)
    requires t.pc.Fetched? && t.pc.i < |cfg.files| ==> MatchesPublished(t, cfg.files[t.pc.i])
    ensures Advances(cfg, s, t)
  {
  }

  lemma DownloadAdvances(cfg: Config, s: State, step: DownloadStep)
    requires Undisturbed(cfg, s) && s.tasks == map[] && CalmDownload(cfg, s, step) && DownloadNext(cfg, s, step).Some?
    ensures Advances(cfg, s, DownloadNext(cfg, s, step).value)
  {
    match step
    case StartDownloads(published, saved) => OpeningAdvances(cfg, s, published, saved);
    case KeepFile(_) => CheckAdvances(cfg, s, step);
    case FetchStart(_) => CheckAdvances(cfg, s, step);
    case FinishDownloads(_) => CheckAdvances(cfg, s, step);
    case _ => FetchAdvances(cfg, s, step);
  }

  lemma CheckAdvances(cfg: Config, s: State, step: DownloadStep)
    requires Undisturbed(cfg, s) && DownloadNext(cfg, s, step).Some?
    requires step.KeepFile? || step.FetchStart? || step.FinishDownloads?
    ensures Advances(cfg, s, DownloadNext(cfg, s, step).value)
  {
    match step
    case KeepFile(saved) => KeepWhere(cfg, s, saved);
    case FetchStart(saved) => FetchStartWhere(cfg, s, saved);
    case FinishDownloads(saved) => FinishWhere(cfg, s, saved);
    SteadyAdvances(cfg, s, DownloadNext(cfg, s, step).value);
  }

  lemma FetchAdvances(cfg: Config, s: State, step: DownloadStep)
    requires Undisturbed(cfg, s) && CalmDownload(cfg, s, step) && DownloadNext(cfg, s, step).Some?
    requires step.FetchOk? || step.AcceptFile? || step.DownloadsOk?
    ensures Advances(cfg, s, DownloadNext(cfg, s, step).value)
  {
    match step
    case FetchOk(bytes) => FetchWhere(cfg, s, bytes);
    case AcceptFile(saved) => AcceptWhere(cfg, s, saved);
    case DownloadsOk => CloseWhere(cfg, s);
    SteadyAdvances(cfg, s, DownloadNext(cfg, s, step).value);
  }

  // ---- One file ----

  /** The step is one of this file's task: the other tasks stay as they are. */
  ghost predicate OthersStay(s: State, t: State, f: FileName) {
    && t.pc == Processing && !t.shutdown && t.tasks.Keys == s.tasks.Keys
    && forall g :: g in s.tasks && g != f ==> t.tasks[g] == s.tasks[g]
  }

  lemma {:induction false} WeightChanges(tasks: map<FileName, Task>, tasks': map<FileName, Task>, files: seq<FileName>,
                                         weight: Task -> nat, f: FileName)
    requires tasks'.Keys == tasks.Keys && f in tasks && weight(tasks'[f]) <= weight(tasks[f])
    requires forall g :: g in tasks && g != f ==> tasks'[g] == tasks[g]
    ensures Weight(tasks', files, weight) <= Weight(tasks, files, weight)
    ensures weight(tasks'[f]) == weight(tasks[f]) ==> Weight(tasks', files, weight) == Weight(tasks, files, weight)
    ensures f in files && weight(tasks'[f]) < weight(tasks[f]) ==>
              Weight(tasks', files, weight) < Weight(tasks, files, weight)
  {
    if files != [] {
      WeightChanges(tasks, tasks', files[1..], weight, f);
    }
  }

  lemma TaskAdvances(cfg: Config, s: State, t: State, f: FileName)
    requires Undisturbed(cfg, s) && s.pc == Processing && f in s.tasks && f in cfg.files
    requires OthersStay(s, t, f) && t.published == s.published && WellTask(t.tasks[f])
    requires || Unstarted(t.tasks[f]) < Unstarted(s.tasks[f])
             || (Unstarted(t.tasks[f]) == Unstarted(s.tasks[f]) && Remaining(t.tasks[f]) < Remaining(s.tasks[f]))
    ensures Advances(cfg, s, t)
  {
    WeightChanges(s.tasks, t.tasks, cfg.files, Unstarted, f);
    if Unstarted(t.tasks[f]) == Unstarted(s.tasks[f]) {
      WeightChanges(s.tasks, t.tasks, cfg.files, Remaining, f);
    }
  }

  /** Where no stage has failed, a stage that runs has a reader that runs. */
  lemma NoBreak(cfg: Pipeline.Config, p: Pipeline.State, step: Pipeline.Step)
    requires Pipeline.CleanOk(cfg, p) && Pipeline.BreaksOk(cfg, p) && Pipeline.NoneFailed(p)
    requires Pipeline.Enabled(cfg, p, step)
    ensures step.action != Pipeline.Break
  {
  }

  lemma StaysWell(cfg: Pipeline.Config, p: Pipeline.State, step: Pipeline.Step)
    requires Pipeline.Enabled(cfg, p, step) && Pipeline.NoneFailed(p)
    requires step.action != Pipeline.Break && step.action != Pipeline.Fail
    ensures Pipeline.NoneFailed(Pipeline.Apply(cfg, p, step))
  {
    match step
    case Parser(action) => assert Pipeline.NoneFailed(Pipeline.ParserStep(cfg, p, action));
    case Validator(action) => assert Pipeline.NoneFailed(Pipeline.ValidatorStep(cfg, p, action));
    case Normalizer(action) => assert Pipeline.NoneFailed(Pipeline.NormalizerStep(cfg, p, action));
    case Batcher(action) => BatcherStaysWell(cfg, p, action);
    case Publisher(action) => assert Pipeline.NoneFailed(Pipeline.PublisherStep(p, action));
  }

  lemma BatcherStaysWell(cfg: Pipeline.Config, p: Pipeline.State, action: Pipeline.Action)
    requires Pipeline.BatcherEnabled(p, action) && Pipeline.NoneFailed(p)
    requires action != Pipeline.Break && action != Pipeline.Fail
    ensures Pipeline.NoneFailed(Pipeline.BatcherStep(cfg, p, action))
  {
    if action == Pipeline.Receive {
      var filled := p.batch + [p.batchQueue[0]];
      PipelineProofs.BatcherOnly(p, p.batchQueue[1..], p.received + 1, [], filled);
      PipelineProofs.BatcherOnly(p, p.batchQueue[1..], p.received + 1, filled, p.sending);
      SameFailures(p, Pipeline.BatcherStep(cfg, p, action));
    }
  }

  lemma SameFailures(p: Pipeline.State, p': Pipeline.State)
    requires PipelineProofs.SameButBatcher(p, p') && Pipeline.NoneFailed(p)
    ensures Pipeline.NoneFailed(p')
  {
  }

  lemma EffectWhere(cfg: Config, s: State, f: FileName, a: Attempt, step: Pipeline.Step)
    ensures var t := PipeEffect(cfg, s, f, a, step); t.pc == s.pc && Steady(s, t)
  {
  }

  lemma MovedWhere(s: State, t: State, f: FileName, a: Attempt)
    requires s.pc == Processing && !s.shutdown && f in s.tasks
    requires t.pc == s.pc && Steady(s, t)
    ensures var t' := SetTask(t, f, Active(a));
            OthersStay(s, t', f) && t'.tasks[f] == Active(a) && t'.published == s.published
  {
  }

  lemma PipesWhere(cfg: Config, s: State, f: FileName, step: Pipeline.Step)
    requires s.pc == Processing && !s.shutdown && f in s.tasks && s.tasks[f].Active?
    requires Pipeline.Enabled(cfg.pipeline, s.tasks[f].attempt.pipe, step)
    ensures PipeNext(cfg, s, f, step).Some?
    ensures var t := PipeNext(cfg, s, f, step).value;
            && OthersStay(s, t, f) && t.published == s.published && t.tasks[f].Active?
            && t.tasks[f].attempt.pipe == Pipeline.Apply(cfg.pipeline, s.tasks[f].attempt.pipe, step)
  {
    var a := s.tasks[f].attempt;
    EffectWhere(cfg, s, f, a, step);
    MovedWhere(s, PipeEffect(cfg, s, f, a, step), f, a.(pipe := Pipeline.Apply(cfg.pipeline, a.pipe, step)));
  }

  lemma PipeAdvances(cfg: Config, s: State, f: FileName, step: Pipeline.Step)
    requires Undisturbed(cfg, s) && s.pc == Processing && f in s.tasks && f in cfg.files && s.tasks[f].Active?
    requires Pipeline.Enabled(cfg.pipeline, s.tasks[f].attempt.pipe, step) && step.action != Pipeline.Fail
    requires var a := s.tasks[f].attempt; Pipeline.Inv(cfg.pipeline, a.pipe, cfg.parse(a.src))
    ensures PipeNext(cfg, s, f, step).Some? && Advances(cfg, s, PipeNext(cfg, s, f, step).value)
  {
    var a := s.tasks[f].attempt;
    assert WellTask(s.tasks[f]);
    NoBreak(cfg.pipeline, a.pipe, step);
    StaysWell(cfg.pipeline, a.pipe, step);
    PipelineProofs.StepKeeps(cfg.pipeline, a.pipe, cfg.parse(a.src), step);
    PipesWhere(cfg, s, f, step);
    TaskAdvances(cfg, s, PipeNext(cfg, s, f, step).value, f);
  }

  lemma AdmitAdvances(cfg: Config, s: State, f: FileName)
    requires Undisturbed(cfg, s) && s.pc == Processing && f in s.tasks && f in cfg.files && s.tasks[f] == Queued
    ensures Advances(cfg, s, SetTask(s, f, Admitted))
  {
    TaskAdvances(cfg, s, SetTask(s, f, Admitted), f);
  }

  lemma StartAdvances(cfg: Config, s: State, f: FileName)
    requires Undisturbed(cfg, s) && s.pc == Processing && f in s.tasks && f in cfg.files
    requires s.tasks[f] == Admitted && f in s.disk
    ensures StartNext(cfg, s, f, true).Some? && Advances(cfg, s, StartNext(cfg, s, f, true).value)
  {
    TaskAdvances(cfg, s, StartNext(cfg, s, f, true).value, f);
  }

  lemma AnnounceAdvances(cfg: Config, s: State, f: FileName)
    requires Undisturbed(cfg, s) && s.pc == Processing && f in s.tasks && f in cfg.files && s.tasks[f].Active?
    requires Pipeline.Succeeded(s.tasks[f].attempt.pipe)
    ensures AnnounceNext(s, f).Some? && Advances(cfg, s, AnnounceNext(s, f).value)
  {
    TaskAdvances(cfg, s, AnnounceNext(s, f).value, f);
  }

  lemma CompleteAdvances(cfg: Config, s: State, f: FileName)
    requires Undisturbed(cfg, s) && s.pc == Processing && f in s.tasks && f in cfg.files && s.tasks[f].Announced?
    ensures CompleteNext(s, f, true).Some? && Advances(cfg, s, CompleteNext(s, f, true).value)
  {
    TaskAdvances(cfg, s, CompleteNext(s, f, true).value, f);
  }

  lemma FileAdvances(cfg: Config, s: State, f: FileName, step: TaskStep)
    requires Undisturbed(cfg, s) && s.pc == Processing && f in s.tasks && f in cfg.files
    requires CalmTask(step) && TaskNext(cfg, s, f, step).Some?
    requires s.tasks[f].Active? ==>
               Pipeline.Inv(cfg.pipeline, s.tasks[f].attempt.pipe, cfg.parse(s.tasks[f].attempt.src))
    ensures Advances(cfg, s, TaskNext(cfg, s, f, step).value)
  {
    assert WellTask(s.tasks[f]);
    match step
    case Admit => AdmitAdvances(cfg, s, f);
    case Start(_) => StartAdvances(cfg, s, f);
    case Pipe(action) => PipeAdvances(cfg, s, f, action);
    case Announce => AnnounceAdvances(cfg, s, f);
    case Complete(_) => CompleteAdvances(cfg, s, f);
    case _ => assert false;
  }

  lemma PipelineOk(cfg: Config, s: State, f: FileName)
    requires TasksOk(cfg, s) && f in s.tasks
    ensures f in cfg.files
    ensures s.tasks[f].Active? ==>
              Pipeline.Inv(cfg.pipeline, s.tasks[f].attempt.pipe, cfg.parse(s.tasks[f].attempt.src))
  {
    assert TaskOk(cfg, s, f, s.tasks[f]);
  }

  // ---- From the tasks to the commit ----

  lemma StartingAdvances(cfg: Config, s: State, memory: Marker, progress: map<DataType, nat>)
    requires Undisturbed(cfg, s) && s.pc == Protocol.Downloaded
    ensures Advances(cfg, s, s.(memory := memory, pc := Starting))
    ensures Advances(cfg, s, s.(memory := memory, progress := progress, pc := Starting))
    ensures Advances(cfg, s, s.(pc := Ready))
  {
    SteadyAdvances(cfg, s, s.(memory := memory, pc := Starting));
    SteadyAdvances(cfg, s, s.(memory := memory, progress := progress, pc := Starting));
    SteadyAdvances(cfg, s, s.(pc := Ready));
  }

  lemma BeginAdvances(cfg: Config, s: State)
    requires Undisturbed(cfg, s) && s.pc == Protocol.Downloaded
    ensures BeginNext(cfg, s).Some? && Advances(cfg, s, BeginNext(cfg, s).value)
  {
    if s.memory.processing.status == Pending {
      StartingAdvances(cfg, s, StartProcessing(s.memory, |cfg.files|, s.clock), map[]);
    } else {
      StartingAdvances(cfg, s, ResumeProcessing(s.memory, |cfg.files|), Rehydrated(cfg, s));
    }
  }

  lemma SpawnedAdvances(cfg: Config, s: State, pending: seq<FileName>)
    requires Undisturbed(cfg, s) && s.pc == Ready
    ensures Advances(cfg, s, s.(tasks := map f | f in pending :: Queued, pc := Processing))
  {
    var t := s.(tasks := map f | f in pending :: Queued, pc := Processing);
    forall f | f in t.tasks ensures WellTask(t.tasks[f]) {
      assert t.tasks[f] == Queued;
    }
  }

  lemma DoneAdvances(cfg: Config, s: State, memory: Marker)
    requires Undisturbed(cfg, s) && (s.pc == Ready || s.pc == Processing)
    ensures Advances(cfg, s, s.(memory := memory, tasks := map[], pc := Finalizing(true)))
  {
  }

  lemma SpawnAdvances(cfg: Config, s: State)
    requires Undisturbed(cfg, s) && s.pc == Ready && s.memory.overall != Completed
    ensures SpawnNext(cfg, s).Some? && Advances(cfg, s, SpawnNext(cfg, s).value)
  {
    var pending := PendingFiles(s.memory, cfg.files);
    if pending != [] {
      SpawnedAdvances(cfg, s, pending);
    } else {
      DoneAdvances(cfg, s, CompleteProcessing(s.memory, s.clock));
    }
  }

  lemma JoinAdvances(cfg: Config, s: State)
    requires Undisturbed(cfg, s) && JoinNext(s).Some?
    ensures Advances(cfg, s, JoinNext(s).value)
  {
    forall f | f in s.tasks ensures !s.tasks[f].Failing? {
      assert WellTask(s.tasks[f]);
    }
    DoneAdvances(cfg, s, CompleteProcessing(s.memory, s.clock));
  }

  lemma StartedAdvances(cfg: Config, s: State)
    requires Undisturbed(cfg, s) && s.pc == Starting
    ensures SaveOkNext(cfg, s).Some? && Advances(cfg, s, SaveOkNext(cfg, s).value)
  {
    SteadyAdvances(cfg, s, Save(s).(pc := Ready));
  }

  lemma CertifiedAdvances(cfg: Config, s: State)
    requires Undisturbed(cfg, s) && s.pc == Finalizing(true)
    ensures SaveOkNext(cfg, s).Some? && Advances(cfg, s, SaveOkNext(cfg, s).value)
  {
    SteadyAdvances(cfg, s, Save(s).(counts := RecordCounts(cfg, s.memory), pc := Connecting));
  }

  lemma CommitAdvances(cfg: Config, s: State)
    requires s.pc == Committing && s.memory.overall == Completed
    ensures SaveOkNext(cfg, s).Some? && Finished(SaveOkNext(cfg, s).value)
  {
    EndRunFinishes(Save(s).(status := Succeeded), OkTrue);
  }

  lemma SaveAdvances(cfg: Config, s: State)
    requires Undisturbed(cfg, s) && SaveOkNext(cfg, s).Some? && (s.pc == Committing ==> s.memory.overall == Completed)
    ensures Advances(cfg, s, SaveOkNext(cfg, s).value)
  {
    if s.pc == Starting {
      StartedAdvances(cfg, s);
    } else if s.pc == Finalizing(true) {
      CertifiedAdvances(cfg, s);
    } else {
      CommitAdvances(cfg, s);
    }
  }

  lemma ConnectAdvances(cfg: Config, s: State)
    requires Undisturbed(cfg, s) && s.pc == Connecting
    ensures ConnectNext(s, true).Some? && Advances(cfg, s, ConnectNext(s, true).value)
  {
    SteadyAdvances(cfg, s, s.(pc := Broadcasting(0, false)));
  }

  lemma PublishAdvances(cfg: Config, s: State)
    requires Undisturbed(cfg, s) && s.pc.Broadcasting? && s.pc.k < |EXCHANGES|
    ensures PublishNext(s, true).Some? && Advances(cfg, s, PublishNext(s, true).value)
  {
    SteadyAdvances(cfg, s, Log(s, Announcement(s, s.pc.k)).(pc := Broadcasting(s.pc.k + 1, false)));
  }

  lemma BroadcastEndAdvances(cfg: Config, s: State)
    requires Undisturbed(cfg, s) && s.pc == Broadcasting(|EXCHANGES|, false)
    ensures BroadcastEndNext(s).Some? && Advances(cfg, s, BroadcastEndNext(s).value)
  {
    SteadyAdvances(cfg, s, s.(memory := CompleteExtraction(s.memory), pc := Committing));
  }

  lemma FinishAdvances(cfg: Config, s: State, step: FinishStep)
    requires Undisturbed(cfg, s) && CalmFinish(step) && FinishNext(cfg, s, step).Some?
    requires s.pc == Ready ==> s.memory.overall != Completed
    requires s.pc == Committing ==> s.memory.overall == Completed
    ensures Advances(cfg, s, FinishNext(cfg, s, step).value)
  {
    match step
    case BeginProcessing => BeginAdvances(cfg, s);
    case SaveOk => SaveAdvances(cfg, s);
    case Spawn => SpawnAdvances(cfg, s);
    case Join => JoinAdvances(cfg, s);
    case Connect(_) => ConnectAdvances(cfg, s);
    case Publish(_) => PublishAdvances(cfg, s);
    case BroadcastEnd => BroadcastEndAdvances(cfg, s);
  }

  // ---- Every calm step ----

  lemma LoopStepAdvances(cfg: Config, s: State, step: LoopStep)
    requires Going(cfg, s) && step.ListOk? && LoopNext(s, step).Some?
    ensures Advances(cfg, s, LoopNext(s, step).value)
  {
    ListAdvances(cfg, s, step.readable);
  }

  lemma DownloadStepAdvances(cfg: Config, s: State, step: DownloadStep)
    requires Going(cfg, s) && CalmDownload(cfg, s, step) && DownloadNext(cfg, s, step).Some?
    ensures Advances(cfg, s, DownloadNext(cfg, s, step).value)
  {
    ProtocolCounts.DownloadIsBefore(cfg, s, step);
    DownloadAdvances(cfg, s, step);
  }

  lemma FileStepAdvances(cfg: Config, s: State, f: FileName, step: TaskStep)
    requires Going(cfg, s) && CalmTask(step) && TaskNext(cfg, s, f, step).Some?
    ensures Advances(cfg, s, TaskNext(cfg, s, f, step).value)
  {
    PipelineOk(cfg, s, f);
    FileAdvances(cfg, s, f, step);
  }

  lemma FinishStepAdvances(cfg: Config, s: State, step: FinishStep)
    requires Going(cfg, s) && CalmFinish(step) && FinishNext(cfg, s, step).Some?
    ensures Advances(cfg, s, FinishNext(cfg, s, step).value)
  {
    FinishAdvances(cfg, s, step);
  }

  /** While nothing fails and nothing interferes, every step of a run leaves less to do, in the order
      of three natural numbers, or it is the one that finds or makes the marker finalized. */
  lemma CalmStepAdvances(cfg: Config, s: State, step: Step)
    requires ValidConfig(cfg) && Going(cfg, s) && Calm(cfg, s, step) && Next(cfg, s, step).Some?
    ensures var t := Next(cfg, s, step).value; Inv(cfg, t) && (Finished(t) || (Going(cfg, t) && Falls(cfg, s, t)))
  {
    StepKeeps(cfg, s, step);
    match step
    case Loop(loop) => LoopStepAdvances(cfg, s, loop);
    case Download(download) => DownloadStepAdvances(cfg, s, download);
    case File(file, task) => FileStepAdvances(cfg, s, file, task);
    case Finish(finish) => FinishStepAdvances(cfg, s, finish);
    case Outside(_) => assert false;
  }

  /** Time that passes, progress that is written and metadata that is saved change nothing of it. */
  predicate Neutral(step: Step) {
    || (step.Outside? && step.event.Tick?)
    || (step.Download? && step.download.SaveMetadata?)
    || (step.File? && step.task.Progress?)
  }

  /** Neither is a step nearer to the end than the other. */
  lemma LevelStays(cfg: Config, s: State, t: State)
    requires Undisturbed(cfg, s) && t.pc == s.pc && Steady(s, t) && t.metadata == s.metadata
    ensures Undisturbed(cfg, t) && !Falls(cfg, s, t) && !Falls(cfg, t, s)
  {
  }

  lemma ProgressStays(cfg: Config, s: State, f: FileName, saved: bool)
    requires f in s.tasks && ProgressNext(s, f, saved).Some?
    ensures var t := ProgressNext(s, f, saved).value; t.pc == s.pc && Steady(s, t) && t.metadata == s.metadata
  {
  }

  lemma NeutralStays(cfg: Config, s: State, step: Step)
    requires ValidConfig(cfg) && Going(cfg, s) && Neutral(step) && Next(cfg, s, step).Some?
    ensures var t := Next(cfg, s, step).value; Going(cfg, t) && !Falls(cfg, s, t) && !Falls(cfg, t, s)
  {
    StepKeeps(cfg, s, step);
    NeutralSteady(cfg, s, step);
    LevelStays(cfg, s, Next(cfg, s, step).value);
  }

  lemma NeutralSteady(cfg: Config, s: State, step: Step)
    requires Neutral(step) && Next(cfg, s, step).Some?
    ensures var t := Next(cfg, s, step).value; t.pc == s.pc && Steady(s, t) && t.metadata == s.metadata
  {
    if step.File? {
      ProgressStays(cfg, s, step.file, step.task.saved);
    }
  }

  // ---- There always is one ----

  lemma FileOnDisk(cfg: Config, s: State, f: FileName)
    requires DownloadOk(cfg, s) && s.pc == Processing && f in cfg.files
    ensures f in s.disk
  {
    var j :| 0 <= j < |cfg.files| && cfg.files[j] == f;
    assert Trusted(cfg, s, cfg.files[j]);
  }

  lemma TaskStep(cfg: Config, s: State, f: FileName) returns (step: TaskStep)
    requires cfg.pipeline.queueSize >= 1 && Undisturbed(cfg, s) && s.pc == Processing && f in s.tasks && f in s.disk
    requires s.tasks[f].Active? ==>
               Pipeline.Inv(cfg.pipeline, s.tasks[f].attempt.pipe, cfg.parse(s.tasks[f].attempt.src))
    requires s.tasks[f] != Done
    ensures CalmTask(step) && TaskNext(cfg, s, f, step).Some?
  {
    assert WellTask(s.tasks[f]);
    match s.tasks[f]
    case Queued => step := Admit;
    case Admitted => step := Start(true);
    case Announced(_) => step := Complete(true);
    case Active(a) =>
      if Pipeline.AllStopped(a.pipe) {
        step := Announce;
      } else {
        PipelineProofs.NextStepEnabled(cfg.pipeline, a.pipe);
        step := Pipe(PipelineProofs.NextStep(cfg.pipeline, a.pipe));
      }
  }

  lemma ProcessingStep(cfg: Config, s: State) returns (step: Step)
    requires cfg.pipeline.queueSize >= 1 && Going(cfg, s) && s.pc == Processing
    ensures Calm(cfg, s, step) && Next(cfg, s, step).Some?
  {
    if f :| f in s.tasks && s.tasks[f] != Done {
      PipelineOk(cfg, s, f);
      FileOnDisk(cfg, s, f);
      var task := TaskStep(cfg, s, f);
      step := File(f, task);
    } else {
      JoinWhere(s);
      step := Finish(Join);
    }
  }

  lemma JoinWhere(s: State)
    requires s.pc == Processing && !s.shutdown && forall f :: f in s.tasks ==> s.tasks[f] == Done
    ensures JoinNext(s).Some?
  {
  }

  lemma CheckingStep(cfg: Config, s: State) returns (step: DownloadStep)
    requires s.pc.Checking? && s.pc.i <= |cfg.files|
    ensures CalmDownload(cfg, s, step) && DownloadNext(cfg, s, step).Some?
  {
    if s.pc.i == |cfg.files| {
      FinishWhere(cfg, s, true);
      step := FinishDownloads(true);
    } else if NeedsDownload(cfg, s, cfg.files[s.pc.i]) {
      FetchStartWhere(cfg, s, true);
      step := FetchStart(true);
    } else {
      KeepWhere(cfg, s, true);
      step := KeepFile(true);
    }
  }

  lemma FetchingStep(cfg: Config, s: State) returns (step: DownloadStep)
    requires s.pc.Fetching? && s.pc.i < |cfg.files| && Attainable(cfg, s.published)
    ensures CalmDownload(cfg, s, step) && DownloadNext(cfg, s, step).Some?
  {
    var file := cfg.files[s.pc.i];
    var bytes: Bytes := [];
    if s.published.Some? && file in s.published.value {
      bytes :| cfg.hash(bytes) == s.published.value[file];
    }
    FetchWhere(cfg, s, bytes);
    step := FetchOk(bytes);
  }

  lemma DownloadingStep(cfg: Config, s: State) returns (step: DownloadStep)
    requires Undisturbed(cfg, s) && IndexOk(cfg, s.pc)
    requires s.pc.Opening? || s.pc.Checking? || s.pc.Fetching? || s.pc.Fetched? || s.pc.Closing?
    ensures CalmDownload(cfg, s, step) && DownloadNext(cfg, s, step).Some?
  {
    match s.pc
    case Opening => step := StartDownloads(None, true);
    case Checking(_) => step := CheckingStep(cfg, s);
    case Fetching(_) => step := FetchingStep(cfg, s);
    case Fetched(_) => AcceptWhere(cfg, s, true); step := AcceptFile(true);
    case Closing => CloseWhere(cfg, s); step := DownloadsOk;
  }

  lemma FinishingStep(cfg: Config, s: State) returns (step: FinishStep)
    requires Undisturbed(cfg, s) && IndexOk(cfg, s.pc) && PastDownload(s.pc) && s.pc != Processing
    ensures CalmFinish(step) && FinishNext(cfg, s, step).Some?
  {
    match s.pc
    case Downloaded => step := BeginProcessing;
    case Starting => step := SaveOk;
    case Ready => step := Spawn;
    case Finalizing(_) => step := SaveOk;
    case Connecting => step := Connect(true);
    case Broadcasting(k, _) => step := if k < |EXCHANGES| then Publish(true) else BroadcastEnd;
    case Committing => step := SaveOk;
  }

  /** No deadlock: a run in which nothing has failed can always go on. */
  lemma SomeCalmStep(cfg: Config, s: State) returns (step: Step)
    requires cfg.pipeline.queueSize >= 1 && Going(cfg, s)
    ensures Calm(cfg, s, step) && Next(cfg, s, step).Some?
  {
    if s.pc.Listing? {
      step := Loop(ListOk(true));
    } else if s.pc == Processing {
      step := ProcessingStep(cfg, s);
    } else if PastDownload(s.pc) {
      var finish := FinishingStep(cfg, s);
      step := Finish(finish);
    } else {
      var download := DownloadingStep(cfg, s);
      step := Download(download);
    }
  }

  // ---- Every schedule ----

  /** The schedule picks a calm step wherever a run in which nothing has failed may be. */
  ghost predicate Schedules(cfg: Config, choose: State -> Step) {
    forall s :: Going(cfg, s) ==> Calm(cfg, s, choose(s)) && Next(cfg, s, choose(s)).Some?
  }

  /** The steps that the schedule takes from here. */
  ghost predicate Follows(cfg: Config, choose: State -> Step, s: State, steps: seq<Step>)
    decreases |steps|
  {
    steps != [] ==>
      && steps[0] == choose(s) && Next(cfg, s, steps[0]).Some?
      && Follows(cfg, choose, Next(cfg, s, steps[0]).value, steps[1..])
  }

  /** Liveness: from any state of a run in which nothing has failed, every schedule of steps in which
      nothing fails and nothing interferes comes, after finitely many steps, to the end of the run,
      with a finalized marker on disk and every file completed. */
  lemma {:induction false} EveryScheduleCommits(cfg: Config, choose: State -> Step, s: State)
    returns (steps: seq<Step>, t: State)
    requires ValidConfig(cfg) && Going(cfg, s) && Schedules(cfg, choose)
    ensures Follows(cfg, choose, s, steps) && Run(cfg, s, steps) == Some(t)
    ensures Inv(cfg, t) && Finished(t) && AllCompleted(t.durable.value, cfg.files)
    decreases Phase(s.pc), Early(cfg, s), Late(cfg, s)
  {
    var next := Next(cfg, s, choose(s)).value;
    CalmStepAdvances(cfg, s, choose(s));
    if Finished(next) {
      steps, t := [choose(s)], next;
      CommittedIsWhole(cfg, t);
    } else {
      var later;
      later, t := EveryScheduleCommits(cfg, choose, next);
      steps := [choose(s)] + later;
      assert steps[1..] == later;
    }
  }

  lemma CommittedIsWhole(cfg: Config, s: State)
    requires Inv(cfg, s) && Committed(s)
    ensures AllCompleted(s.durable.value, cfg.files)
  {
  }

  ghost function CalmChoice(cfg: Config, s: State): Step {
    if exists step :: Calm(cfg, s, step) && Next(cfg, s, step).Some?
    then
      var step :| Calm(cfg, s, step) && Next(cfg, s, step).Some?;
      step
    else Outside(Signal)
  }

  /** And there is such a schedule. */
  lemma ASchedule(cfg: Config) returns (choose: State -> Step)
    requires cfg.pipeline.queueSize >= 1
    ensures Schedules(cfg, choose)
  {
    choose := s => CalmChoice(cfg, s);
    forall s | Going(cfg, s) ensures Calm(cfg, s, choose(s)) && Next(cfg, s, choose(s)).Some? {
      var step := SomeCalmStep(cfg, s);
    }
  }
}
