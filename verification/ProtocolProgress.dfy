/** Processing progress on disk is never lost by accident. */
module ProtocolProgress {
  import opened Json
  import opened Marker
  import opened Protocol
  import opened ProtocolInv
  import opened ProtocolDownload
  import opened ProtocolTasks
  import opened ProtocolTheorems

  /** How a durably completed file may have changed from one state to the next: not at all; or
      the verified bytes on disk are not the ones it was completed from; or a run that was forced,
      or could not read the marker, put a new one in its place. */
  ghost predicate Accounted(cfg: Config, s: State, s': State, f: FileName)
    requires s.durable.Some? && f in s.durable.value.processing.byFile
  {
    && s'.durable.Some?
    && var entry := s.durable.value.processing.byFile[f];
       if s'.durableGen == s.durableGen then
         || (IsCompleted(s'.durable.value.processing.byFile, f) && s'.durable.value.processing.byFile[f] == entry)
         || (f in s'.disk && f in s'.metadata && s'.metadata[f] == cfg.hash(s'.disk[f])
             && entry.source != Some(cfg.hash(s'.disk[f])))
       else s'.origin == Forced || s'.origin == Unreadable
  }

  /** The step writes the marker that the state x holds in memory. */
  ghost predicate Writes(s: State, x: State, s': State) {
    && Holding(x.pc)
    && x.durable == s.durable && x.durableGen == s.durableGen
    && s'.durable == Some(x.memory) && s'.durableGen == x.gen
    && s'.disk == x.disk && s'.metadata == x.metadata && s'.origin == x.origin
  }

  lemma SavingAccounts(cfg: Config, s: State, x: State, s': State, f: FileName)
    requires Inv(cfg, x) && Writes(s, x, s') && s.durable.Some? && IsCompleted(s.durable.value.processing.byFile, f)
    ensures Accounted(cfg, s, s', f)
  {
    assert ProgressOk(cfg, x);
    if x.gen == x.durableGen {
      assert Kept(cfg, x, f);
      if !(IsCompleted(x.memory.processing.byFile, f)
           && x.memory.processing.byFile[f] == s.durable.value.processing.byFile[f]) {
        var j :| 0 <= j < Verified(cfg, x.pc) && j < |cfg.files| && cfg.files[j] == f;
        assert Trusted(cfg, x, cfg.files[j]);
      }
    }
  }

  ghost predicate Untouched(s: State, s': State) {
    s'.durable == s.durable && s'.durableGen == s.durableGen
  }

  lemma OutsideUntouched(s: State, step: OutsideStep)
    requires OutsideNext(s, step).Some?
    ensures Untouched(s, OutsideNext(s, step).value)
  {
  }

  lemma EndRunUntouched(s: State, outcome: Outcome)
    ensures var s' := EndRun(s, outcome);
            s'.durable == s.durable && s'.durableGen == s.durableGen
            && s'.disk == s.disk && s'.metadata == s.metadata && s'.origin == s.origin
  {
  }

  lemma DecidedUntouched(s: State)
    ensures Untouched(s, Decided(s))
  {
    EndRunUntouched(s.(status := Succeeded), OkTrue);
  }

  lemma NewUntouched(s: State, origin: Origin)
    ensures Untouched(s, NewMarker(s, origin))
  {
  }

  lemma OpenUntouched(s: State, force: bool, readable: bool)
    ensures Untouched(s, OpenMarker(s, force, readable))
  {
    NewUntouched(s, Forced);
    NewUntouched(s, Absent);
    NewUntouched(s, Unreadable);
  }

  lemma LoopTopUntouched(s: State, status: ExtractionStatus)
    ensures Untouched(s, LoopTop(s, status))
  {
  }

  lemma BootUntouched(s: State, force: bool, readable: bool)
    requires s.pc == Down
    ensures LoopNext(s, Boot(force, readable)).Some? && Untouched(s, LoopNext(s, Boot(force, readable)).value)
  {
  }

  lemma TimerUntouched(s: State, downloader: bool, readable: bool)
    requires s.pc == Parked
    ensures LoopNext(s, Timer(downloader, readable)).Some?
            && Untouched(s, LoopNext(s, Timer(downloader, readable)).value)
  {
    LoopTopUntouched(s, Broken);
  }

  lemma TakeTriggerUntouched(s: State, downloader: bool, readable: bool)
    requires s.pc == Parked && s.trigger.Some?
    ensures LoopNext(s, TakeTrigger(downloader, readable)).Some?
    ensures Untouched(s, LoopNext(s, TakeTrigger(downloader, readable)).value)
  {
    LoopTopUntouched(s.(trigger := None), Broken);
  }

  lemma LeaveUntouched(s: State, step: LoopStep)
    requires LoopNext(s, step).Some? && (step.SeeShutdown? || step.Enter? || step.ListEmpty? || step.Abort?)
    ensures Untouched(s, LoopNext(s, step).value)
  {
    EndRunUntouched(s, OkFalse);
    EndRunUntouched(s, Err);
    EndRunUntouched(s.(status := Succeeded), OkTrue);
  }

  lemma LoopUntouched(s: State, step: LoopStep)
    requires LoopNext(s, step).Some?
    ensures Untouched(s, LoopNext(s, step).value)
  {
    match step
    case ListOk(readable) =>
      OpenUntouched(s, s.pc.force, readable);
      DecidedUntouched(OpenMarker(s, s.pc.force, readable));
    case Boot(force, readable) => BootUntouched(s, force, readable);
    case Timer(downloader, readable) => TimerUntouched(s, downloader, readable);
    case TakeTrigger(downloader, readable) => TakeTriggerUntouched(s, downloader, readable);
    case _ => LeaveUntouched(s, step);
  }

  /** A save comes after everything else a download step does. */
  lemma DownloadWrites(cfg: Config, s: State, step: DownloadStep)
    requires Saves(step) && step.saved && DownloadNext(cfg, s, step).Some?
    ensures DownloadNext(cfg, s, Unsaved(step)).Some?
    ensures Writes(s, DownloadNext(cfg, s, Unsaved(step)).value, DownloadNext(cfg, s, step).value)
  {
  }

  lemma DownloadUntouched(cfg: Config, s: State, step: DownloadStep)
    requires DownloadNext(cfg, s, step).Some? && !(Saves(step) && step.saved)
    ensures Untouched(s, DownloadNext(cfg, s, step).value)
  {
  }

  lemma DownloadAccounts(cfg: Config, s: State, step: DownloadStep, f: FileName)
    requires ValidConfig(cfg) && Inv(cfg, s) && DownloadNext(cfg, s, step).Some?
    requires s.durable.Some? && IsCompleted(s.durable.value.processing.byFile, f)
    ensures Accounted(cfg, s, DownloadNext(cfg, s, step).value, f)
  {
    if Saves(step) && step.saved {
      DownloadWrites(cfg, s, step);
      DownloadKeeps(cfg, s, Unsaved(step));
      SavingAccounts(cfg, s, DownloadNext(cfg, s, Unsaved(step)).value, DownloadNext(cfg, s, step).value, f);
    } else {
      DownloadUntouched(cfg, s, step);
    }
  }

  predicate Saves(step: DownloadStep) {
    step.StartDownloads? || step.KeepFile? || step.FetchStart? || step.AcceptFile? || step.FinishDownloads?
  }

  function Unsaved(step: DownloadStep): DownloadStep
    requires Saves(step)
  {
    match step
    case StartDownloads(published, _) => StartDownloads(published, false)
    case KeepFile(_) => KeepFile(false)
    case FetchStart(_) => FetchStart(false)
    case AcceptFile(_) => AcceptFile(false)
    case FinishDownloads(_) => FinishDownloads(false)
  }

  predicate TaskSaves(step: TaskStep) {
    (step.Start? || step.Progress? || step.Complete?) && step.saved
  }

  function UnsavedTask(step: TaskStep): TaskStep
    requires TaskSaves(step)
  {
    match step
    case Start(_) => Start(false)
    case Progress(_) => TaskStep.Progress(false)
    case Complete(_) => Complete(false)
  }

  lemma TaskUntouched(cfg: Config, s: State, file: FileName, step: TaskStep)
    requires TaskNext(cfg, s, file, step).Some? && !TaskSaves(step)
    ensures Untouched(s, TaskNext(cfg, s, file, step).value)
  {
  }

  lemma StartWrites(cfg: Config, s: State, file: FileName)
    requires file in s.tasks && StartNext(cfg, s, file, true).Some? && Holding(s.pc)
    ensures StartNext(cfg, s, file, false).Some?
    ensures Writes(s, StartNext(cfg, s, file, false).value, StartNext(cfg, s, file, true).value)
  {
  }

  lemma ProgressWrites(s: State, file: FileName)
    requires file in s.tasks && ProgressNext(s, file, true).Some? && Holding(s.pc)
    ensures ProgressNext(s, file, false).Some?
    ensures Writes(s, ProgressNext(s, file, false).value, ProgressNext(s, file, true).value)
  {
  }

  lemma CompleteWrites(s: State, file: FileName)
    requires file in s.tasks && CompleteNext(s, file, true).Some? && Holding(s.pc)
    ensures CompleteNext(s, file, false).Some?
    ensures Writes(s, CompleteNext(s, file, false).value, CompleteNext(s, file, true).value)
  {
  }

  /** What a task saves is what it would have held without the save; its own move, which a failed
      save changes, is not part of the marker. */
  lemma TaskWrites(cfg: Config, s: State, file: FileName, step: TaskStep)
    requires TaskNext(cfg, s, file, step).Some? && TaskSaves(step)
    ensures TaskNext(cfg, s, file, UnsavedTask(step)).Some?
    ensures Writes(s, TaskNext(cfg, s, file, UnsavedTask(step)).value, TaskNext(cfg, s, file, step).value)
  {
    match step
    case Start(_) => StartWrites(cfg, s, file);
    case Progress(_) => ProgressWrites(s, file);
    case Complete(_) => CompleteWrites(s, file);
  }

  lemma TaskAccounts(cfg: Config, s: State, file: FileName, step: TaskStep, f: FileName)
    requires Inv(cfg, s) && TaskNext(cfg, s, file, step).Some?
    requires s.durable.Some? && IsCompleted(s.durable.value.processing.byFile, f)
    ensures Accounted(cfg, s, TaskNext(cfg, s, file, step).value, f)
  {
    if TaskSaves(step) {
      TaskWrites(cfg, s, file, step);
      TaskKeeps(cfg, s, file, UnsavedTask(step));
      SavingAccounts(cfg, s, TaskNext(cfg, s, file, UnsavedTask(step)).value, TaskNext(cfg, s, file, step).value, f);
    } else {
      TaskUntouched(cfg, s, file, step);
    }
  }

  lemma StartUntouched(s: State, memory: Marker)
    ensures Untouched(s, s.(memory := memory, pc := Starting))
  {
  }

  lemma ResumeUntouched(s: State, memory: Marker, progress: map<DataType, nat>)
    ensures Untouched(s, s.(memory := memory, progress := progress, pc := Starting))
  {
  }

  lemma BeginUntouched(cfg: Config, s: State)
    requires s.pc == Downloaded
    ensures BeginNext(cfg, s).Some? && Untouched(s, BeginNext(cfg, s).value)
  {
    if s.memory.processing.status == Pending {
      StartUntouched(s, StartProcessing(s.memory, |cfg.files|, s.clock));
    } else if s.memory.processing.status == InProgress {
      ResumeUntouched(s, ResumeProcessing(s.memory, |cfg.files|), Rehydrated(cfg, s));
    }
  }

  lemma SpawnUntouched(cfg: Config, s: State)
    requires s.pc == Ready
    ensures SpawnNext(cfg, s).Some? && Untouched(s, SpawnNext(cfg, s).value)
  {
    if PendingFiles(s.memory, cfg.files) == [] && s.memory.overall == Completed {
      EndRunUntouched(s.(status := Succeeded), OkTrue);
    }
  }

  lemma JoinUntouched(s: State)
    requires JoinNext(s).Some?
    ensures Untouched(s, JoinNext(s).value)
  {
  }

  lemma ConnectUntouched(s: State, ok: bool)
    requires ConnectNext(s, ok).Some?
    ensures Untouched(s, ConnectNext(s, ok).value)
  {
    EndRunUntouched(s.(status := Broken), OkFalse);
  }

  lemma PublishUntouched(s: State, ok: bool)
    requires PublishNext(s, ok).Some?
    ensures Untouched(s, PublishNext(s, ok).value)
  {
  }

  lemma BroadcastEndUntouched(s: State)
    requires BroadcastEndNext(s).Some?
    ensures Untouched(s, BroadcastEndNext(s).value)
  {
    EndRunUntouched(s.(status := Broken), OkFalse);
  }

  lemma FinishUntouched(cfg: Config, s: State, step: FinishStep)
    requires FinishNext(cfg, s, step).Some? && step != SaveOk
    ensures Untouched(s, FinishNext(cfg, s, step).value)
  {
    match step
    case BeginProcessing => BeginUntouched(cfg, s);
    case Spawn => SpawnUntouched(cfg, s);
    case Join => JoinUntouched(s);
    case Connect(ok) => ConnectUntouched(s, ok);
    case Publish(ok) => PublishUntouched(s, ok);
    case BroadcastEnd => BroadcastEndUntouched(s);
  }

  lemma RunSaves(cfg: Config, s: State)
    requires s.pc.Starting? || s.pc == Finalizing(true)
    ensures SaveOkNext(cfg, s).Some? && Writes(s, s, SaveOkNext(cfg, s).value)
  {
  }

  lemma FailedRunSaves(cfg: Config, s: State)
    requires s.pc == Finalizing(false)
    ensures SaveOkNext(cfg, s).Some? && Writes(s, s, SaveOkNext(cfg, s).value)
  {
    EndRunUntouched(Save(s).(status := Broken), OkFalse);
  }

  lemma CommitSaves(cfg: Config, s: State)
    requires s.pc.Committing?
    ensures SaveOkNext(cfg, s).Some? && Writes(s, s, SaveOkNext(cfg, s).value)
  {
    EndRunUntouched(Save(s).(status := Succeeded), OkTrue);
  }

  lemma SaveOkWrites(cfg: Config, s: State)
    requires s.pc.Starting? || s.pc.Finalizing? || s.pc.Committing?
    ensures SaveOkNext(cfg, s).Some? && Writes(s, s, SaveOkNext(cfg, s).value)
  {
    if s.pc.Committing? {
      CommitSaves(cfg, s);
    } else if s.pc == Finalizing(false) {
      FailedRunSaves(cfg, s);
    } else {
      RunSaves(cfg, s);
    }
  }

  lemma FinishAccounts(cfg: Config, s: State, step: FinishStep, f: FileName)
    requires Inv(cfg, s) && FinishNext(cfg, s, step).Some?
    requires s.durable.Some? && IsCompleted(s.durable.value.processing.byFile, f)
    ensures Accounted(cfg, s, FinishNext(cfg, s, step).value, f)
  {
    if step == SaveOk {
      SaveOkWrites(cfg, s);
      SavingAccounts(cfg, s, s, FinishNext(cfg, s, step).value, f);
    } else {
      FinishUntouched(cfg, s, step);
    }
  }

  /** Progress is never lost: whatever the next step is, a crash included, a durably completed
      file stays completed as it is, or the bytes on disk have been verified to be others, or a
      forced run or an unreadable marker started a new generation. A restart of the version
      (Reprocess) is never the reason. */
  lemma ProgressIsNeverLost(cfg: Config, s: State, step: Step, f: FileName)
    requires ValidConfig(cfg) && Reachable(cfg, s) && Next(cfg, s, step).Some?
    requires s.durable.Some? && IsCompleted(s.durable.value.processing.byFile, f)
    ensures Accounted(cfg, s, Next(cfg, s, step).value, f)
  {
    ReachableInv(cfg, s);
    match step
    case Outside(event) => OutsideUntouched(s, event);
    case Loop(loop) => LoopUntouched(s, loop);
    case Download(download) => DownloadAccounts(cfg, s, download, f);
    case File(file, task) => TaskAccounts(cfg, s, file, task, f);
    case Finish(finish) => FinishAccounts(cfg, s, finish, f);
  }
}
