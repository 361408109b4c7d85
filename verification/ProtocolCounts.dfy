/** The progress in memory, which a resume rebuilds from the marker: what it shows when the files
    of a run have been processed. */
module ProtocolCounts {
  import opened Json
  import opened Marker
  import opened MarkerFacts
  import opened Protocol
  import opened ProtocolInv
  import opened ProtocolTheorems
  import Pipeline
  import PipelineProofs

  // ---- Rehydration ----

  lemma {:induction false} NoneCompleted(cfg: Config, byFile: map<FileName, FileProgress>, d: DataType)
    requires forall g :: g in byFile && g in cfg.kind && cfg.kind[g] == d ==> !IsCompleted(byFile, g)
    ensures CompletedRecords(cfg, byFile, d) == 0
    decreases |byFile|
  {
    if byFile != map[] {
      var f :| f in byFile && CompletedRecords(cfg, byFile, d)
        == (if IsCompleted(byFile, f) && f in cfg.kind && cfg.kind[f] == d then byFile[f].records else 0)
           + CompletedRecords(cfg, byFile - {f}, d);
      NoneCompleted(cfg, byFile - {f}, d);
    }
  }

  /** With one file per type the sum is that file's records, if it is completed. */
  lemma {:induction false} OneOfItsType(cfg: Config, byFile: map<FileName, FileProgress>, f: FileName)
    requires f in cfg.kind
    requires forall g :: g in byFile && g in cfg.kind && cfg.kind[g] == cfg.kind[f] ==> g == f
    ensures CompletedRecords(cfg, byFile, cfg.kind[f]) == if IsCompleted(byFile, f) then byFile[f].records else 0
    decreases |byFile|
  {
    var d := cfg.kind[f];
    if byFile != map[] {
      var g :| g in byFile && CompletedRecords(cfg, byFile, d)
        == (if IsCompleted(byFile, g) && g in cfg.kind && cfg.kind[g] == d then byFile[g].records else 0)
           + CompletedRecords(cfg, byFile - {g}, d);
      if g == f {
        NoneCompleted(cfg, byFile - {g}, d);
      } else {
        OneOfItsType(cfg, byFile - {g}, f);
      }
    }
  }

  // ---- What the progress shows ----

  /** For a completed file its records, for another one nothing. */
  ghost predicate FromMarker(cfg: Config, s: State) {
    forall f :: f in cfg.files ==>
      && f in cfg.kind
      && Shown(s.progress, cfg.kind[f])
         == if IsCompleted(s.memory.processing.byFile, f) then s.memory.processing.byFile[f].records else 0
  }

  /** How many of a file's records reach the batcher. */
  function Passed(cfg: Config, src: Bytes): nat {
    |Pipeline.Validated(cfg.pipeline, cfg.parse(src))|
  }

  ghost predicate TaskCounted(cfg: Config, s: State, f: FileName, t: Task, n: nat) {
    match t
    case Queued => n == 0
    case Admitted => n == 0
    case Skipped => n == 0
    case Active(a) => n == a.pipe.received
    case Announced(a) => n == Passed(cfg, a.src) && a.pipe.parsed == |cfg.parse(a.src)|
    case Done =>
      && f in s.disk && f in s.memory.processing.byFile
      && n == Passed(cfg, s.disk[f]) && s.memory.processing.byFile[f].records == |cfg.parse(s.disk[f])|
    case Failing(_) => true
  }

  ghost predicate FileCounted(cfg: Config, s: State, f: FileName) {
    && f in cfg.kind
    && if f in s.tasks then TaskCounted(cfg, s, f, s.tasks[f], Shown(s.progress, cfg.kind[f]))
       else f in s.memory.processing.byFile && Shown(s.progress, cfg.kind[f]) == s.memory.processing.byFile[f].records
  }

  predicate BeforeProcessing(pc: Pc) {
    pc.Listing? || pc.Opening? || pc.Checking? || pc.Fetching? || pc.Fetched? || pc.Closing? || pc.Downloaded?
  }

  ghost predicate CountsShown(cfg: Config, s: State) {
    && (BeforeProcessing(s.pc) ==> s.progress == map[])
    && (s.pc.Starting? || (s.pc.Ready? && s.memory.processing.status == InProgress) ==> FromMarker(cfg, s))
    && (s.pc.Processing? ==> forall f :: f in cfg.files ==> FileCounted(cfg, s, f))
  }

  // ---- Steps outside the tasks ----

  /** Elsewhere the progress has nothing to show. */
  predicate Silent(pc: Pc) {
    !BeforeProcessing(pc) && !pc.Starting? && !pc.Ready? && !pc.Processing?
  }

  lemma EndRunSilent(s: State, outcome: Outcome)
    ensures Silent(EndRun(s, outcome).pc)
  {
  }

  lemma EndRunShown(cfg: Config, s: State, outcome: Outcome)
    ensures CountsShown(cfg, EndRun(s, outcome))
  {
    EndRunSilent(s, outcome);
  }

  lemma OutsideShown(cfg: Config, s: State, step: OutsideStep)
    requires CountsShown(cfg, s) && OutsideNext(s, step).Some?
    ensures CountsShown(cfg, OutsideNext(s, step).value)
  {
    var s' := OutsideNext(s, step).value;
    if s'.pc.Processing? {
      forall f | f in cfg.files ensures FileCounted(cfg, s', f) {
        assert FileCounted(cfg, s, f);
      }
    }
  }

  lemma NewShown(s: State, origin: Origin)
    ensures NewMarker(s, origin).progress == s.progress
  {
  }

  lemma OpenShown(s: State, force: bool, readable: bool)
    ensures OpenMarker(s, force, readable).progress == s.progress
  {
    NewShown(s, Forced);
    NewShown(s, Absent);
    NewShown(s, Unreadable);
  }

  lemma DecidedShown(cfg: Config, s: State)
    requires s.progress == map[]
    ensures CountsShown(cfg, Decided(s))
  {
    EndRunShown(cfg, s.(status := Succeeded), OkTrue);
  }

  lemma LoopTopSilent(s: State, status: ExtractionStatus)
    ensures Silent(LoopTop(s, status).pc)
  {
  }

  lemma BootSilent(s: State, force: bool, readable: bool)
    requires s.pc == Down
    ensures LoopNext(s, Boot(force, readable)).Some? && Silent(LoopNext(s, Boot(force, readable)).value.pc)
  {
  }

  lemma TimerSilent(s: State, downloader: bool, readable: bool)
    requires s.pc == Parked
    ensures LoopNext(s, Timer(downloader, readable)).Some? && Silent(LoopNext(s, Timer(downloader, readable)).value.pc)
  {
    LoopTopSilent(s, Broken);
  }

  lemma TriggerSilent(s: State, downloader: bool, readable: bool)
    requires s.pc == Parked && s.trigger.Some?
    ensures LoopNext(s, TakeTrigger(downloader, readable)).Some?
    ensures Silent(LoopNext(s, TakeTrigger(downloader, readable)).value.pc)
  {
    LoopTopSilent(s.(trigger := None), Broken);
  }

  lemma EnterShown(cfg: Config, s: State)
    requires LoopNext(s, Enter).Some?
    ensures CountsShown(cfg, LoopNext(s, Enter).value)
  {
    EndRunShown(cfg, s, OkFalse);
  }

  lemma LoopShown(cfg: Config, s: State, step: LoopStep)
    requires CountsShown(cfg, s) && LoopNext(s, step).Some?
    ensures CountsShown(cfg, LoopNext(s, step).value)
  {
    match step
    case Enter => EnterShown(cfg, s);
    case ListEmpty => EndRunShown(cfg, s.(status := Succeeded), OkTrue);
    case Abort => EndRunShown(cfg, s, Err);
    case ListOk(readable) =>
      OpenShown(s, s.pc.force, readable);
      DecidedShown(cfg, OpenMarker(s, s.pc.force, readable));
    case Boot(force, readable) => BootSilent(s, force, readable);
    case Timer(downloader, readable) => TimerSilent(s, downloader, readable);
    case TakeTrigger(downloader, readable) => TriggerSilent(s, downloader, readable);
    case SeeShutdown =>
  }

  lemma DownloadIsBefore(cfg: Config, s: State, step: DownloadStep)
    requires DownloadNext(cfg, s, step).Some?
    ensures BeforeProcessing(s.pc)
  {
  }

  lemma EndRunKeepsProgress(s: State, outcome: Outcome)
    ensures EndRun(s, outcome).progress == s.progress
  {
  }

  lemma FetchKeepsProgress(cfg: Config, s: State, step: DownloadStep)
    requires DownloadNext(cfg, s, step).Some?
    requires !step.StartDownloads? && !step.KeepFile? && !step.FetchStart? && !step.AcceptFile?
             && !step.FinishDownloads?
    ensures DownloadNext(cfg, s, step).value.progress == s.progress
  {
    if step.RejectFile? {
      var file := cfg.files[s.pc.i];
      EndRunKeepsProgress(s.(metadata := s.metadata - {file}, disk := if step.removed then s.disk - {file} else s.disk),
                          Err);
    }
  }

  lemma SavingKeepsProgress(cfg: Config, s: State, step: DownloadStep)
    requires DownloadNext(cfg, s, step).Some?
    requires step.StartDownloads? || step.KeepFile? || step.FetchStart? || step.AcceptFile? || step.FinishDownloads?
    ensures DownloadNext(cfg, s, step).value.progress == s.progress
  {
  }

  lemma DownloadKeepsProgress(cfg: Config, s: State, step: DownloadStep)
    requires DownloadNext(cfg, s, step).Some?
    ensures DownloadNext(cfg, s, step).value.progress == s.progress
  {
    if step.StartDownloads? || step.KeepFile? || step.FetchStart? || step.AcceptFile? || step.FinishDownloads? {
      SavingKeepsProgress(cfg, s, step);
    } else {
      FetchKeepsProgress(cfg, s, step);
    }
  }

  lemma DownloadStays(cfg: Config, s: State, step: DownloadStep)
    requires DownloadNext(cfg, s, step).Some?
    ensures var pc := DownloadNext(cfg, s, step).value.pc; BeforeProcessing(pc) || Silent(pc)
  {
  }

  lemma DownloadShown(cfg: Config, s: State, step: DownloadStep)
    requires CountsShown(cfg, s) && DownloadNext(cfg, s, step).Some?
    ensures CountsShown(cfg, DownloadNext(cfg, s, step).value)
  {
    DownloadIsBefore(cfg, s, step);
    DownloadKeepsProgress(cfg, s, step);
    DownloadStays(cfg, s, step);
  }

  // ---- Starting ----

  /** A fresh phase has no completed file, a resumed one shows those of earlier sessions. */
  lemma BeginShown(cfg: Config, s: State)
    requires ValidConfig(cfg) && EntriesOk(s.memory, cfg.files) && PhasesOk(s.memory, cfg.files)
    requires s.pc == Downloaded && s.progress == map[]
    ensures CountsShown(cfg, BeginNext(cfg, s).value)
  {
    if s.memory.processing.status == InProgress {
      forall f | f in cfg.files
        ensures f in cfg.kind && Shown(Rehydrated(cfg, s), cfg.kind[f])
             == if IsCompleted(s.memory.processing.byFile, f) then s.memory.processing.byFile[f].records else 0
      {
        OneOfItsType(cfg, s.memory.processing.byFile, f);
        InExchanges(cfg.kind[f]);
      }
    }
  }

  lemma InExchanges(d: DataType)
    ensures d in EXCHANGES
  {
    match d
    case Artists => assert EXCHANGES[0] == d;
    case Labels => assert EXCHANGES[1] == d;
    case Masters => assert EXCHANGES[2] == d;
    case Releases => assert EXCHANGES[3] == d;
  }

  lemma SpawnShown(cfg: Config, s: State)
    requires PhasesOk(s.memory, cfg.files) && s.memory.processing.status != Pending && CountsShown(cfg, s)
             && s.pc == Ready
    ensures CountsShown(cfg, SpawnNext(cfg, s).value)
  {
    var pending := PendingFiles(s.memory, cfg.files);
    if pending != [] {
      forall f ensures f in pending <==> f in cfg.files && !IsCompleted(s.memory.processing.byFile, f) {
        PendingFilesSpec(s.memory, cfg.files, f);
      }
      assert pending[0] in pending;
      QueuedShown(cfg, s, pending);
    } else {
      NothingPending(cfg, s);
    }
  }

  lemma QueuedShown(cfg: Config, s: State, pending: seq<FileName>)
    requires FromMarker(cfg, s)
    requires forall f :: f in pending <==> f in cfg.files && !IsCompleted(s.memory.processing.byFile, f)
    ensures CountsShown(cfg, s.(tasks := map f | f in pending :: Queued, pc := Processing))
  {
    var s' := s.(tasks := map f | f in pending :: Queued, pc := Processing);
    forall f | f in cfg.files ensures FileCounted(cfg, s', f) {
    }
  }

  lemma FinalizingShown(cfg: Config, s: State, memory: Marker)
    ensures CountsShown(cfg, s.(memory := memory, tasks := map[], pc := Finalizing(true)))
  {
  }

  lemma NothingPending(cfg: Config, s: State)
    requires s.pc == Ready && PendingFiles(s.memory, cfg.files) == []
    ensures CountsShown(cfg, SpawnNext(cfg, s).value)
  {
    if s.memory.overall == Completed {
      EndRunShown(cfg, s.(status := Succeeded), OkTrue);
    } else {
      FinalizingShown(cfg, s, CompleteProcessing(s.memory, s.clock));
    }
  }

  lemma StartSaveShown(cfg: Config, s: State)
    requires CountsShown(cfg, s) && s.pc.Starting?
    ensures CountsShown(cfg, Save(s).(pc := Ready))
  {
    assert FromMarker(cfg, Save(s).(pc := Ready));
  }

  lemma LastSaveShown(cfg: Config, s: State)
    requires s.pc.Finalizing? || s.pc.Committing?
    ensures CountsShown(cfg, SaveOkNext(cfg, s).value)
  {
    if s.pc.Committing? {
      EndRunShown(cfg, Save(s).(status := Succeeded), OkTrue);
    } else if s.pc == Finalizing(false) {
      EndRunShown(cfg, Save(s).(status := Broken), OkFalse);
    } else {
      ConnectingShown(cfg, Save(s), RecordCounts(cfg, s.memory));
    }
  }

  lemma ConnectingShown(cfg: Config, s: State, counts: map<DataType, nat>)
    ensures CountsShown(cfg, s.(counts := counts, pc := Connecting))
  {
  }

  lemma SaveShown(cfg: Config, s: State)
    requires CountsShown(cfg, s) && (s.pc.Starting? || s.pc.Finalizing? || s.pc.Committing?)
    ensures CountsShown(cfg, SaveOkNext(cfg, s).value)
  {
    if s.pc.Starting? {
      StartSaveShown(cfg, s);
    } else {
      LastSaveShown(cfg, s);
    }
  }

  lemma JoinSilent(s: State)
    requires JoinNext(s).Some?
    ensures Silent(JoinNext(s).value.pc)
  {
    assert JoinNext(s).value.pc == Finalizing(RunSucceeded(s));
  }

  lemma ConnectSilent(s: State, ok: bool)
    requires ConnectNext(s, ok).Some?
    ensures Silent(ConnectNext(s, ok).value.pc)
  {
    EndRunSilent(s.(status := Broken), OkFalse);
  }

  lemma PublishSilent(s: State, ok: bool)
    requires PublishNext(s, ok).Some?
    ensures Silent(PublishNext(s, ok).value.pc)
  {
  }

  lemma BroadcastEndSilent(s: State)
    requires BroadcastEndNext(s).Some?
    ensures Silent(BroadcastEndNext(s).value.pc)
  {
    EndRunSilent(s.(status := Broken), OkFalse);
  }

  lemma FinishShown(cfg: Config, s: State, step: FinishStep)
    requires ValidConfig(cfg) && Inv(cfg, s) && CountsShown(cfg, s) && FinishNext(cfg, s, step).Some?
    ensures CountsShown(cfg, FinishNext(cfg, s, step).value)
  {
    match step
    case BeginProcessing => BeginShown(cfg, s);
    case SaveOk => SaveShown(cfg, s);
    case Spawn => SpawnShown(cfg, s);
    case Join => JoinSilent(s);
    case Connect(ok) => ConnectSilent(s, ok);
    case Publish(ok) => PublishSilent(s, ok);
    case BroadcastEnd => BroadcastEndSilent(s);
  }

  // ---- The tasks ----

  /** The step of one file's task touches no other file: its task, its entry, its bytes and the
      progress of its type stay. */
  ghost predicate OnlyFile(cfg: Config, s: State, s': State, f: FileName) {
    && s'.disk == s.disk
    && (forall g :: g in cfg.files && g != f ==>
          && (g in s'.tasks <==> g in s.tasks) && (g in s.tasks ==> s'.tasks[g] == s.tasks[g])
          && (g in s'.memory.processing.byFile <==> g in s.memory.processing.byFile)
          && (g in s.memory.processing.byFile ==> s'.memory.processing.byFile[g] == s.memory.processing.byFile[g])
          && (g in cfg.kind ==> Shown(s'.progress, cfg.kind[g]) == Shown(s.progress, cfg.kind[g])))
  }

  lemma OthersShown(cfg: Config, s: State, s': State, f: FileName)
    requires s'.pc.Processing? && forall g :: g in cfg.files ==> FileCounted(cfg, s, g)
    requires OnlyFile(cfg, s, s', f) && (f in cfg.files ==> FileCounted(cfg, s', f))
    ensures CountsShown(cfg, s')
  {
    forall g | g in cfg.files ensures FileCounted(cfg, s', g) {
      assert FileCounted(cfg, s, g);
    }
  }

  /** The task moves, and nothing else that counts does. */
  lemma SetTaskShown(cfg: Config, s: State, f: FileName, t: Task)
    requires s.pc == Processing && CountsShown(cfg, s) && f in s.tasks && f in cfg.files
    requires TaskCounted(cfg, s, f, t, Shown(s.progress, cfg.kind[f]))
    ensures CountsShown(cfg, SetTask(s, f, t))
  {
    assert FileCounted(cfg, s, f);
    OthersShown(cfg, s, SetTask(s, f, t), f);
  }

  /** The marker's entry of one file changes, which its task does not count. */
  ghost predicate EntryOnly(s: State, m: Marker, f: FileName) {
    && (forall g :: g != f ==> (g in m.processing.byFile <==> g in s.memory.processing.byFile))
    && (forall g :: g != f && g in m.processing.byFile ==> m.processing.byFile[g] == s.memory.processing.byFile[g])
  }

  lemma EntryShown(cfg: Config, s: State, m: Marker, f: FileName, t: Task)
    requires s.pc == Processing && CountsShown(cfg, s) && f in s.tasks && f in cfg.files && EntryOnly(s, m, f)
    requires TaskCounted(cfg, s.(memory := m), f, t, Shown(s.progress, cfg.kind[f]))
    ensures CountsShown(cfg, SetTask(s.(memory := m), f, t))
  {
    assert FileCounted(cfg, s, f);
    OthersShown(cfg, s, SetTask(s.(memory := m), f, t), f);
  }

  /** What is written to the disk and the history is not counted. */
  lemma WrittenShown(cfg: Config, s: State, s': State)
    requires CountsShown(cfg, s) && s.pc == Processing && s'.pc == Processing
    requires s'.tasks == s.tasks && s'.disk == s.disk && s'.progress == s.progress
    requires s'.memory.processing.byFile == s.memory.processing.byFile
    ensures CountsShown(cfg, s')
  {
    forall f | f in cfg.files ensures FileCounted(cfg, s', f) {
      assert FileCounted(cfg, s, f);
    }
  }

  lemma StartSavedShown(cfg: Config, s: State, f: FileName)
    requires s.pc == Processing && CountsShown(cfg, s) && f in cfg.files
    requires f in s.tasks && s.tasks[f] == Admitted && f in s.disk
    ensures CountsShown(cfg, StartNext(cfg, s, f, true).value)
  {
    assert FileCounted(cfg, s, f);
    var moved := SetTask(s.(memory := StartFileProcessing(s.memory, f, s.clock)), f, Active(NewAttempt(cfg, s, f)));
    EntryShown(cfg, s, StartFileProcessing(s.memory, f, s.clock), f, Active(NewAttempt(cfg, s, f)));
    WrittenShown(cfg, moved, StartNext(cfg, s, f, true).value);
  }

  lemma StartFailedShown(cfg: Config, s: State, f: FileName)
    requires s.pc == Processing && CountsShown(cfg, s) && f in cfg.files
    requires f in s.tasks && s.tasks[f] == Admitted && f in s.disk
    ensures CountsShown(cfg, StartNext(cfg, s, f, false).value)
  {
    var moved := SetTask(s.(memory := StartFileProcessing(s.memory, f, s.clock)), f, Failing(None));
    EntryShown(cfg, s, StartFileProcessing(s.memory, f, s.clock), f, Failing(None));
    WrittenShown(cfg, moved, StartNext(cfg, s, f, false).value);
  }

  lemma ReceivedCounts(cfg: Pipeline.Config, p: Pipeline.State, action: Pipeline.Step)
    requires Pipeline.Enabled(cfg, p, action)
    ensures Pipeline.Apply(cfg, p, action).received == p.received + if action == Pipeline.Batcher(Pipeline.Receive)
            then 1 else 0
  {
  }

  /** The attempt after the step, and what it has received. */
  lemma MovedCounted(cfg: Config, s: State, f: FileName, action: Pipeline.Step)
    requires s.pc == Processing && CountsShown(cfg, s) && f in cfg.files
    requires f in s.tasks && PipeNext(cfg, s, f, action).Some?
    ensures f in cfg.kind
    ensures var a := AttemptOf(s.tasks[f]);
            var moved := WithAttempt(s.tasks[f], a.(pipe := Pipeline.Apply(cfg.pipeline, a.pipe, action)));
            TaskCounted(cfg, s, f, moved,
              Shown(s.progress, cfg.kind[f]) + if action == Pipeline.Batcher(Pipeline.Receive) then 1 else 0)
  {
    ReceivedCounts(cfg.pipeline, AttemptOf(s.tasks[f]).pipe, action);
    assert FileCounted(cfg, s, f);
  }

  /** One more record at the batcher is one more in the progress of its type, and of no other. */
  lemma PipeShown(cfg: Config, s: State, f: FileName, action: Pipeline.Step)
    requires ValidConfig(cfg) && s.pc == Processing && CountsShown(cfg, s) && f in cfg.files
    requires f in s.tasks && PipeNext(cfg, s, f, action).Some?
    ensures CountsShown(cfg, PipeNext(cfg, s, f, action).value)
  {
    var a := AttemptOf(s.tasks[f]);
    var moved := WithAttempt(s.tasks[f], a.(pipe := Pipeline.Apply(cfg.pipeline, a.pipe, action)));
    MovedCounted(cfg, s, f, action);
    if action == Pipeline.Batcher(Pipeline.Receive) {
      CountedShown(cfg, s, f, moved);
    } else {
      SetTaskShown(cfg, s, f, moved);
      EffectShown(cfg, s, f, a, action, moved);
    }
  }

  lemma EffectShown(cfg: Config, s: State, f: FileName, a: Attempt, action: Pipeline.Step, t: Task)
    requires s.pc == Processing && CountsShown(cfg, SetTask(s, f, t)) && action != Pipeline.Batcher(Pipeline.Receive)
    ensures CountsShown(cfg, SetTask(PipeEffect(cfg, s, f, a, action), f, t))
  {
    if action == Pipeline.Publisher(Pipeline.Confirm) {
      LoggedShown(cfg, s, f, t, Confirmed(a.id, a.pipe.inflight));
    }
  }

  lemma LoggedShown(cfg: Config, s: State, f: FileName, t: Task, e: Event)
    requires s.pc == Processing && CountsShown(cfg, SetTask(s, f, t))
    ensures CountsShown(cfg, SetTask(Log(s, e), f, t))
  {
    WrittenShown(cfg, SetTask(s, f, t), SetTask(Log(s, e), f, t));
  }

  lemma CountedShown(cfg: Config, s: State, f: FileName, t: Task)
    requires ValidConfig(cfg) && s.pc == Processing && CountsShown(cfg, s) && f in cfg.files && f in s.tasks
    requires TaskCounted(cfg, s, f, t, Shown(s.progress, cfg.kind[f]) + 1)
    ensures CountsShown(cfg, SetTask(Counted(s, cfg.kind[f]), f, t))
  {
    var s' := SetTask(Counted(s, cfg.kind[f]), f, t);
    assert FileCounted(cfg, s, f);
    assert FileCounted(cfg, s', f);
    OthersShown(cfg, s, s', f);
  }

  lemma ProgressShown(cfg: Config, s: State, f: FileName, saved: bool)
    requires s.pc == Processing && CountsShown(cfg, s) && f in cfg.files && f in s.tasks && HasAttempt(s.tasks[f])
    ensures CountsShown(cfg, ProgressNext(s, f, saved).value)
  {
    assert FileCounted(cfg, s, f);
    var pipe := AttemptOf(s.tasks[f]).pipe;
    var m := UpdateFileProgress(s.memory, f, pipe.received, pipe.received, pipe.batches);
    EntryShown(cfg, s, m, f, s.tasks[f]);
    assert s.tasks[f := s.tasks[f]] == s.tasks;
    WrittenShown(cfg, SetTask(s.(memory := m), f, s.tasks[f]), ProgressNext(s, f, saved).value);
  }

  /** When a pipeline has succeeded the batcher has counted what the rules passed on, and the
      parser everything. */
  lemma AnnounceShown(cfg: Config, s: State, f: FileName)
    requires TasksOk(cfg, s) && s.pc == Processing && CountsShown(cfg, s)
    requires f in s.tasks && AnnounceNext(s, f).Some?
    ensures CountsShown(cfg, AnnounceNext(s, f).value)
  {
    assert TaskOk(cfg, s, f, s.tasks[f]);
    assert FileCounted(cfg, s, f);
    var a := s.tasks[f].attempt;
    PipelineProofs.InvDelivers(cfg.pipeline, a.pipe, cfg.parse(a.src));
    SetTaskShown(cfg, s, f, Announced(a));
    WrittenShown(cfg, SetTask(s, f, Announced(a)), AnnounceNext(s, f).value);
  }

  /** The completed entry holds the parser's count of the bytes on disk. */
  lemma DoneCounted(cfg: Config, s: State, f: FileName)
    requires TasksOk(cfg, s) && s.pc == Processing && CountsShown(cfg, s)
    requires f in s.tasks && s.tasks[f].Announced?
    ensures f in cfg.files && f in cfg.kind
    ensures var m := CompleteFileProcessing(s.memory, f, s.tasks[f].attempt.pipe.parsed, s.clock);
            EntryOnly(s, m, f) && TaskCounted(cfg, s.(memory := m), f, Done, Shown(s.progress, cfg.kind[f]))
  {
    assert TaskOk(cfg, s, f, s.tasks[f]);
    assert FileCounted(cfg, s, f);
    assert EntryOf(cfg, s, f, s.tasks[f].attempt);
  }

  lemma CompleteSavedShown(cfg: Config, s: State, f: FileName)
    requires TasksOk(cfg, s) && s.pc == Processing && CountsShown(cfg, s)
    requires f in s.tasks && s.tasks[f].Announced?
    ensures CountsShown(cfg, CompleteNext(s, f, true).value)
  {
    var m := CompleteFileProcessing(s.memory, f, s.tasks[f].attempt.pipe.parsed, s.clock);
    DoneCounted(cfg, s, f);
    EntryShown(cfg, s, m, f, Done);
    WrittenShown(cfg, SetTask(s.(memory := m), f, Done), CompleteNext(s, f, true).value);
  }

  lemma CompleteFailedShown(cfg: Config, s: State, f: FileName)
    requires TasksOk(cfg, s) && s.pc == Processing && CountsShown(cfg, s)
    requires f in s.tasks && s.tasks[f].Announced?
    ensures CountsShown(cfg, CompleteNext(s, f, false).value)
  {
    var m := CompleteFileProcessing(s.memory, f, s.tasks[f].attempt.pipe.parsed, s.clock);
    DoneCounted(cfg, s, f);
    EntryShown(cfg, s, m, f, Failing(None));
  }

  /** The steps of a task that change nothing but the task. */
  lemma MoveShown(cfg: Config, s: State, f: FileName, step: TaskStep)
    requires CountsShown(cfg, s) && f in cfg.files && s.pc == Processing && TaskNext(cfg, s, f, step).Some?
    requires step.Skip? || step.Admit? || step.Fail?
    ensures CountsShown(cfg, TaskNext(cfg, s, f, step).value)
  {
    assert FileCounted(cfg, s, f);
    match step
    case Skip => SetTaskShown(cfg, s, f, Skipped);
    case Admit => SetTaskShown(cfg, s, f, Admitted);
    case Fail => SetTaskShown(cfg, s, f, FailingTask(s.tasks[f]));
  }

  lemma TaskShown(cfg: Config, s: State, f: FileName, step: TaskStep)
    requires ValidConfig(cfg) && Inv(cfg, s) && CountsShown(cfg, s) && TaskNext(cfg, s, f, step).Some?
    ensures CountsShown(cfg, TaskNext(cfg, s, f, step).value)
  {
    assert f in cfg.files;
    if s.pc == Processing {
      ProcessingShown(cfg, s, f, step);
    } else {
      DrainingSilent(cfg, s, f, step);
    }
  }

  lemma ProcessingShown(cfg: Config, s: State, f: FileName, step: TaskStep)
    requires ValidConfig(cfg) && TasksOk(cfg, s) && CountsShown(cfg, s) && s.pc == Processing && f in cfg.files
    requires TaskNext(cfg, s, f, step).Some?
    ensures CountsShown(cfg, TaskNext(cfg, s, f, step).value)
  {
    match step
    case Start(saved) => StartShown(cfg, s, f, saved);
    case Pipe(action) => PipeShown(cfg, s, f, action);
    case Progress(saved) => ProgressShown(cfg, s, f, saved);
    case Announce => AnnounceShown(cfg, s, f);
    case Complete(saved) => CompleteShown(cfg, s, f, saved);
    case _ => MoveShown(cfg, s, f, step);
  }

  lemma StartShown(cfg: Config, s: State, f: FileName, saved: bool)
    requires s.pc == Processing && CountsShown(cfg, s) && f in cfg.files
    requires f in s.tasks && s.tasks[f] == Admitted && f in s.disk
    ensures CountsShown(cfg, StartNext(cfg, s, f, saved).value)
  {
    if saved {
      StartSavedShown(cfg, s, f);
    } else {
      StartFailedShown(cfg, s, f);
    }
  }

  lemma CompleteShown(cfg: Config, s: State, f: FileName, saved: bool)
    requires TasksOk(cfg, s) && s.pc == Processing && CountsShown(cfg, s)
    requires f in s.tasks && s.tasks[f].Announced?
    ensures CountsShown(cfg, CompleteNext(s, f, saved).value)
  {
    if saved {
      CompleteSavedShown(cfg, s, f);
    } else {
      CompleteFailedShown(cfg, s, f);
    }
  }

  lemma DrainingSilent(cfg: Config, s: State, f: FileName, step: TaskStep)
    requires s.pc == Finalizing(false) && TaskNext(cfg, s, f, step).Some?
    ensures TaskNext(cfg, s, f, step).value.pc == s.pc
  {
  }

  // ---- All runs ----

  lemma StepShown(cfg: Config, s: State, step: Step)
    requires ValidConfig(cfg) && Inv(cfg, s) && CountsShown(cfg, s) && Next(cfg, s, step).Some?
    ensures CountsShown(cfg, Next(cfg, s, step).value)
  {
    match step
    case Outside(event) => OutsideShown(cfg, s, event);
    case Loop(loop) => LoopShown(cfg, s, loop);
    case Download(download) => DownloadShown(cfg, s, download);
    case File(file, task) => TaskShown(cfg, s, file, task);
    case Finish(finish) => FinishShown(cfg, s, finish);
  }

  lemma {:induction false} RunShown(cfg: Config, s: State, steps: seq<Step>)
    requires ValidConfig(cfg) && Inv(cfg, s) && CountsShown(cfg, s) && Run(cfg, s, steps).Some?
    ensures CountsShown(cfg, Run(cfg, s, steps).value)
    decreases |steps|
  {
    if steps != [] {
      StepKeeps(cfg, s, steps[0]);
      StepShown(cfg, s, steps[0]);
      RunShown(cfg, Next(cfg, s, steps[0]).value, steps[1..]);
    }
  }

  lemma ReachableShown(cfg: Config, s: State)
    requires ValidConfig(cfg) && Reachable(cfg, s)
    ensures CountsShown(cfg, s)
  {
    var s0: State, steps: seq<Step> :| Init(s0) && Run(cfg, s0, steps) == Some(s);
    InitKeeps(cfg, s0);
    RunShown(cfg, s0, steps);
  }

  // ---- Counts survive resume ----

  /** The rules skip none of these records. */
  predicate SkipsNone(cfg: Pipeline.Config, records: seq<DataMessage>) {
    cfg.validate.Some? ==> forall i :: 0 <= i < |records| ==> cfg.validate.value(records[i]).Some?
  }

  lemma {:induction false} AllPassIff(cfg: Pipeline.Config, records: seq<DataMessage>)
    ensures |Pipeline.Validated(cfg, records)| <= |records|
    ensures |Pipeline.Validated(cfg, records)| == |records| <==> SkipsNone(cfg, records)
  {
    if records != [] {
      var rest := records[1..];
      AllPassIff(cfg, rest);
      if cfg.validate.Some? {
        if SkipsNone(cfg, records) {
          forall i | 0 <= i < |rest| ensures cfg.validate.value(rest[i]).Some? {
            assert rest[i] == records[i + 1];
          }
        } else if cfg.validate.value(records[0]).Some? {
          var i :| 0 <= i < |records| && cfg.validate.value(records[i]) == None;
          assert rest[i - 1] == records[i];
        }
      }
    }
  }

  /** All tasks of a run have ended, and all with Ok. */
  ghost predicate RunDone(s: State) {
    s.pc == Processing && RunSucceeded(s) && forall f :: f in s.tasks ==> Stopped(s.tasks[f])
  }

  /** Counts survive resume: when the files of a run are processed, after any number of sessions,
      the progress in memory is, for each type, the count in the marker, which is the one that is
      broadcast, if and only if the type's file was completed in an earlier session or the rules
      skip none of its records; without rules, always. Otherwise it shows what the rules let
      through. */
  lemma CountsSurviveResume(cfg: Config, s: State, f: FileName)
    requires ValidConfig(cfg) && Reachable(cfg, s) && RunDone(s) && f in cfg.files
    ensures f in s.memory.processing.byFile && f in cfg.kind
    ensures f in s.tasks ==> f in s.disk && Shown(s.progress, cfg.kind[f]) == Passed(cfg, s.disk[f])
    ensures f in s.tasks ==> s.memory.processing.byFile[f].records == |cfg.parse(s.disk[f])|
    ensures Shown(s.progress, cfg.kind[f]) == s.memory.processing.byFile[f].records <==>
            f !in s.tasks || SkipsNone(cfg.pipeline, cfg.parse(s.disk[f]))
    ensures cfg.pipeline.validate == None ==> Shown(s.progress, cfg.kind[f]) == s.memory.processing.byFile[f].records
  {
    ReachableShown(cfg, s);
    ReachableInv(cfg, s);
    DoneIsCounted(cfg, s, f);
    if f in s.tasks {
      AllPassIff(cfg.pipeline, cfg.parse(s.disk[f]));
    }
  }

  lemma DoneIsCounted(cfg: Config, s: State, f: FileName)
    requires TasksOk(cfg, s) && CountsShown(cfg, s) && RunDone(s) && f in cfg.files
    ensures f in s.memory.processing.byFile && f in cfg.kind
    ensures f in s.tasks ==>
              && f in s.disk && Shown(s.progress, cfg.kind[f]) == Passed(cfg, s.disk[f])
              && s.memory.processing.byFile[f].records == |cfg.parse(s.disk[f])|
    ensures f !in s.tasks ==> Shown(s.progress, cfg.kind[f]) == s.memory.processing.byFile[f].records
  {
    assert FileCounted(cfg, s, f);
    if f in s.tasks {
      assert TaskOk(cfg, s, f, s.tasks[f]);
    }
  }
}
