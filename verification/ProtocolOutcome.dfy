/** What a run starts from, what it may do on the way, and what it returns with. */
module ProtocolOutcome {
  import opened Json
  import opened Marker
  import opened MarkerFacts
  import opened Protocol
  import opened ProtocolInv
  import opened ProtocolTheorems
  import opened ProtocolCalm

  // ---- What asks for a run ----

  /** A run is entered at the start of the process with its force flag, by the timer without one, or
      by the wait that takes a trigger with the trigger's flag; and by nothing else. */
  lemma EnteredWithFlag(cfg: Config, s: State, step: Step)
    requires Next(cfg, s, step).Some? && !s.pc.Entering? && Next(cfg, s, step).value.pc.Entering?
    ensures var force := Next(cfg, s, step).value.pc.force;
            || (s.pc == Down && step.Loop? && step.loop.Boot? && force == step.loop.bootForce)
            || (s.pc == Parked && step.Loop? && step.loop.Timer? && !force)
            || (s.pc == Parked && step.Loop? && step.loop.TakeTrigger? && s.trigger == Some(force))
  {
    match step
    case Outside(event) => OutsideKeepsPc(s, event);
    case Loop(loop) => LoopEnters(s, loop);
    case Download(download) => DownloadNeverEnters(cfg, s, download);
    case File(file, task) => TaskKeepsPc(cfg, s, file, task);
    case Finish(finish) => FinishNeverEnters(cfg, s, finish);
  }

  lemma OutsideKeepsPc(s: State, step: OutsideStep)
    requires OutsideNext(s, step).Some?
    ensures OutsideNext(s, step).value.pc == if step == Crash then Down else s.pc
  {
  }

  lemma EndRunLeaves(s: State, outcome: Outcome)
    ensures EndRun(s, outcome).pc == Down || EndRun(s, outcome).pc == Parked
  {
  }

  lemma DecidedPlace(s: State)
    ensures Decided(s).pc == Opening || Decided(s).pc == Down || Decided(s).pc == Parked
  {
    EndRunLeaves(s.(status := Succeeded), OkTrue);
  }

  lemma LoopEnters(s: State, step: LoopStep)
    requires LoopNext(s, step).Some? && !s.pc.Entering? && LoopNext(s, step).value.pc.Entering?
    ensures var force := LoopNext(s, step).value.pc.force;
            || (s.pc == Down && step.Boot? && force == step.bootForce)
            || (s.pc == Parked && step.Timer? && !force)
            || (s.pc == Parked && step.TakeTrigger? && s.trigger == Some(force))
  {
    match step
    case ListOk(readable) => DecidedPlace(OpenMarker(s, s.pc.force, readable));
    case ListEmpty => EndRunLeaves(s.(status := Succeeded), OkTrue);
    case Abort => EndRunLeaves(s, Err);
    case _ =>
  }

  lemma DownloadNeverEnters(cfg: Config, s: State, step: DownloadStep)
    requires DownloadNext(cfg, s, step).Some?
    ensures !DownloadNext(cfg, s, step).value.pc.Entering?
  {
  }

  lemma TaskKeepsPc(cfg: Config, s: State, file: FileName, step: TaskStep)
    requires TaskNext(cfg, s, file, step).Some?
    ensures TaskNext(cfg, s, file, step).value.pc == s.pc && TasksRun(s.pc)
  {
    if step.Pipe? {
      EffectWhere(cfg, s, file, AttemptOf(s.tasks[file]), step.action);
    }
  }

  lemma FinishNeverEnters(cfg: Config, s: State, step: FinishStep)
    requires FinishNext(cfg, s, step).Some?
    ensures !FinishNext(cfg, s, step).value.pc.Entering?
  {
    match step
    case BeginProcessing => BeginNeverEnters(cfg, s);
    case SaveOk => SaveNeverEnters(cfg, s);
    case Spawn => SpawnNeverEnters(cfg, s);
    case Join => JoinPlace(s);
    case Connect(ok) => ConnectNeverEnters(s, ok);
    case Publish(ok) => PublishPlace(s, ok);
    case BroadcastEnd => BroadcastEndNeverEnters(s);
  }

  lemma JoinPlace(s: State)
    requires JoinNext(s).Some?
    ensures JoinNext(s).value.pc.Finalizing?
  {
    assert JoinNext(s).value.pc == Finalizing(RunSucceeded(s));
  }

  lemma PublishPlace(s: State, ok: bool)
    requires PublishNext(s, ok).Some?
    ensures PublishNext(s, ok).value.pc.Broadcasting?
  {
  }

  lemma ConnectNeverEnters(s: State, ok: bool)
    requires ConnectNext(s, ok).Some?
    ensures !ConnectNext(s, ok).value.pc.Entering?
  {
    EndRunLeaves(s.(status := Broken), OkFalse);
  }

  lemma BroadcastEndNeverEnters(s: State)
    requires BroadcastEndNext(s).Some?
    ensures !BroadcastEndNext(s).value.pc.Entering?
  {
    EndRunLeaves(s.(status := Broken), OkFalse);
  }

  lemma BeginPlace(cfg: Config, s: State)
    requires s.pc == Protocol.Downloaded
    ensures BeginNext(cfg, s).Some?
    ensures BeginNext(cfg, s).value.pc == Starting || BeginNext(cfg, s).value.pc == Ready
  {
  }

  lemma BeginNeverEnters(cfg: Config, s: State)
    requires s.pc == Protocol.Downloaded
    ensures BeginNext(cfg, s).Some? && !BeginNext(cfg, s).value.pc.Entering?
  {
    BeginPlace(cfg, s);
  }

  lemma SaveNeverEnters(cfg: Config, s: State)
    requires s.pc.Starting? || s.pc.Finalizing? || s.pc.Committing?
    ensures SaveOkNext(cfg, s).Some? && !SaveOkNext(cfg, s).value.pc.Entering?
  {
  }

  lemma SpawnNeverEnters(cfg: Config, s: State)
    requires s.pc == Ready
    ensures SpawnNext(cfg, s).Some? && !SpawnNext(cfg, s).value.pc.Entering?
  {
    if PendingFiles(s.memory, cfg.files) == [] {
      EndRunLeaves(s.(status := Succeeded), OkTrue);
      SpawnsNothing(cfg, s);
    } else {
      SpawnsTasks(cfg, s);
    }
  }

  lemma SpawnsTasks(cfg: Config, s: State)
    requires s.pc == Ready && PendingFiles(s.memory, cfg.files) != []
    ensures SpawnNext(cfg, s).Some? && SpawnNext(cfg, s).value.pc == Processing
  {
  }

  lemma SpawnsNothing(cfg: Config, s: State)
    requires s.pc == Ready && PendingFiles(s.memory, cfg.files) == []
    ensures SpawnNext(cfg, s).Some?
    ensures SpawnNext(cfg, s).value.pc
         == if s.memory.overall == Completed then EndRun(s.(status := Succeeded), OkTrue).pc else Finalizing(true)
  {
  }

  /** Its downloader starts from the metadata file, or from nothing if that does not parse; and from
      nothing it fetches every file. */
  lemma EnteredWithMetadata(cfg: Config, s: State, step: LoopStep, f: FileName)
    requires LoopNext(s, step).Some? && (step.Boot? || ((step.Timer? || step.TakeTrigger?) && step.downloader))
    ensures var t := LoopNext(s, step).value;
            && t.pc.Entering? && t.metaFile == s.metaFile
            && t.metadata == (if step.metaReadable then s.metaFile else map[])
            && (!step.metaReadable ==> NeedsDownload(cfg, t, f))
  {
  }

  /** A wait that ends without a downloader is a failed check: the status says so, and the loop waits
      again, or ends if the process is to shut down. */
  lemma NoDownloaderFails(s: State, step: LoopStep)
    requires LoopNext(s, step).Some? && (step.Timer? || step.TakeTrigger?) && !step.downloader
    ensures LoopNext(s, step).value.status == Broken
    ensures LoopNext(s, step).value.pc == if s.shutdown then Down else Parked
  {
  }

  /** Once a shutdown is requested no run begins: not one that has been entered, and not from the wait,
      which the loop can then leave. */
  lemma NothingBeginsAfterShutdown(cfg: Config, s: State)
    requires s.shutdown
    ensures s.pc.Entering? ==> LoopNext(s, Enter).Some? && LoopNext(s, Enter).value.pc == Down
    ensures s.pc == Parked ==> LoopNext(s, SeeShutdown).Some? && LoopNext(s, SeeShutdown).value.pc == Down
  {
    if s.pc.Entering? {
      EndRunStops(s);
    }
  }

  lemma EndRunStops(s: State)
    requires s.shutdown
    ensures EndRun(s, OkFalse).pc == Down
  {
  }

  /** A run that begins is Running from then on, and shows no progress yet. */
  lemma EnteredRuns(s: State)
    requires s.pc.Entering? && !s.shutdown
    ensures LoopNext(s, Enter).Some?
    ensures var t := LoopNext(s, Enter).value;
            && t.pc == Listing(s.pc.force) && t.status == Running && t.runStarted == s.clock
            && forall d :: Shown(t.progress, d) == 0
  {
  }

  // ---- What it starts from ----

  ghost predicate StartsOver(s: State, readable: bool)
    requires s.pc.Listing?
  {
    s.pc.force || s.durable == None || !readable || Interrupted(s.durable.value)
  }

  /** A new marker of a generation that never was; the marker on disk; or, if that one is finalized,
      nothing. */
  ghost predicate StartedFrom(s: State, readable: bool, t: State)
    requires s.pc.Listing?
  {
    if StartsOver(s, readable) then
      t.pc == Opening && t.memory == New() && t.gen >= s.nextGen && t.nextGen > t.gen
    else if s.durable.value.overall != Completed then
      t.pc == Opening && t.memory == s.durable.value && t.gen == s.durableGen
    else t.pc == Down || t.pc == Parked
  }

  /** A run begins with a new marker, of a generation that never was, exactly if it is forced, or
      there is no marker, or it cannot be read, or it is of a first download cut short. Otherwise it
      goes on with the marker on disk; unless that one is finalized: then, and only then, there is
      nothing to do. */
  lemma WhatARunStartsFrom(cfg: Config, s: State, readable: bool)
    requires Inv(cfg, s) && s.pc.Listing?
    ensures LoopNext(s, ListOk(readable)).Some?
    ensures StartedFrom(s, readable, LoopNext(s, ListOk(readable)).value)
  {
    StartDecides(cfg, s, readable, OpenMarker(s, s.pc.force, readable));
  }

  lemma StartDecides(cfg: Config, s: State, readable: bool, chosen: State)
    requires Inv(cfg, s) && s.pc.Listing? && chosen == OpenMarker(s, s.pc.force, readable)
    ensures StartedFrom(s, readable, Decided(chosen))
  {
    if s.pc.force {
      NewStarts(s, Forced);
    } else if s.durable == None {
      NewStarts(s, Absent);
    } else if !readable {
      NewStarts(s, Unreadable);
    } else {
      DurableDecides(cfg, s, s.durable.value, chosen);
    }
  }

  lemma NewStarts(s: State, origin: Origin)
    ensures var t := Decided(NewMarker(s, origin));
            t.pc == Opening && t.memory == New() && t.gen == s.nextGen && t.nextGen > t.gen
  {
    NewIsContinued(NewMarker(s, origin));
  }

  lemma NewIsContinued(s: State)
    requires s.memory == New()
    ensures Decided(s) == s.(pc := Opening)
  {
    DecisionIs(s.memory);
  }

  lemma DurableDecides(cfg: Config, s: State, m: Marker, chosen: State)
    requires DurableOk(cfg, s) && s.durable == Some(m)
    requires chosen == s.(memory := m, gen := s.durableGen, origin := Resumed)
    ensures var t := Decided(chosen);
            && (Interrupted(m) ==> t.pc == Opening && t.memory == New() && t.gen == s.nextGen && t.nextGen > t.gen)
            && (!Interrupted(m) && m.overall != Completed ==>
                  t.pc == Opening && t.memory == m && t.gen == s.durableGen)
            && (!Interrupted(m) && m.overall == Completed ==> t.pc == Down || t.pc == Parked)
  {
    DecisionIs(m);
    SkipIffCompleted(m, cfg.files, s.clock);
    if Decide(m) == Decision.Skip {
      SkipPlace(chosen);
    } else if Decide(m) == Reprocess {
      RestartPlace(chosen);
    } else {
      ContinuePlace(chosen);
    }
  }

  lemma SkipPlace(s: State)
    requires Decide(s.memory) == Decision.Skip
    ensures Decided(s).pc == Down || Decided(s).pc == Parked
  {
    EndRunLeaves(s.(status := Succeeded), OkTrue);
  }

  lemma ContinuePlace(s: State)
    requires Decide(s.memory) == Continue
    ensures Decided(s).pc == Opening && Decided(s).memory == s.memory && Decided(s).gen == s.gen
  {
  }

  lemma RestartPlace(s: State)
    requires Decide(s.memory) == Reprocess
    ensures Decided(s).pc == Opening && Decided(s).memory == New()
    ensures Decided(s).gen == s.nextGen && Decided(s).nextGen == s.nextGen + 1
  {
  }

  // ---- On the way ----

  /** After a shutdown request no file is started that had not been admitted before it. */
  lemma NothingStartsAfterShutdown(cfg: Config, s: State, file: FileName, step: TaskStep)
    requires TaskNext(cfg, s, file, step).Some? && s.shutdown
    ensures s.tasks[file] == Queued ==> TaskNext(cfg, s, file, step).value.tasks[file] == Skipped
                                        || TaskNext(cfg, s, file, step).value.tasks[file] == Failing(None)
  {
  }

  /** A file is rejected only for a published checksum that is not its own; and it is fetched again by
      whoever looks at it next. */
  lemma RejectedIsFetchedAgain(cfg: Config, s: State, removed: bool)
    requires DownloadNext(cfg, s, RejectFile(removed)).Some?
    ensures s.pc.Fetched? && s.pc.i < |cfg.files|
    ensures var f := cfg.files[s.pc.i];
            s.published.Some? && f in s.published.value && (f in s.metadata ==> s.metadata[f] != s.published.value[f])
    ensures NeedsDownload(cfg, DownloadNext(cfg, s, RejectFile(removed)).value, cfg.files[s.pc.i])
  {
  }

  /** A file is looked at without being fetched exactly if it is there with the checksum recorded for
      it, and that is the published one, where one is listed. */
  lemma MatchingIsKept(cfg: Config, s: State, saved: bool)
    requires s.pc.Checking? && s.pc.i < |cfg.files|
    ensures var f := cfg.files[s.pc.i];
            var matches := f in s.disk && f in s.metadata && s.metadata[f] == cfg.hash(s.disk[f])
                           && (s.published.Some? && f in s.published.value ==> s.published.value[f] == s.metadata[f]);
            && (DownloadNext(cfg, s, KeepFile(saved)).Some? <==> matches)
            && (DownloadNext(cfg, s, FetchStart(saved)).Some? <==> !matches)
  {
  }

  /** Downloading is idempotent: once the download phase is over, looking at the same files again,
      with the same published checksums or with none, fetches nothing. */
  lemma DownloadedOnce(cfg: Config, s: State, f: FileName)
    requires ValidConfig(cfg) && Reachable(cfg, s) && PastDownload(s.pc) && f in cfg.files
    ensures !NeedsDownload(cfg, s, f) && !NeedsDownload(cfg, s.(published := None), f)
  {
    DownloadEstablishesProvenance(cfg, s, f);
  }

  /** And so does a later session with the metadata saved at the end of the phase. */
  lemma SavedMetadataSuffices(cfg: Config, s: State, f: FileName)
    requires ValidConfig(cfg) && Reachable(cfg, s) && s.pc == Closing && f in cfg.files
    ensures DownloadNext(cfg, s, DownloadsOk).Some?
    ensures var t := DownloadNext(cfg, s, DownloadsOk).value;
            t.pc == Protocol.Downloaded && !NeedsDownload(cfg, t.(metadata := t.metaFile), f)
  {
    ReachableInv(cfg, s);
    TrustedAtClose(cfg, s, f);
    TrustedIsKept(cfg, s, f, DownloadNext(cfg, s, DownloadsOk).value);
  }

  lemma TrustedIsKept(cfg: Config, s: State, f: FileName, t: State)
    requires Trusted(cfg, s, f) && t.metaFile == s.metadata && t.disk == s.disk && t.published == s.published
    ensures !NeedsDownload(cfg, t.(metadata := t.metaFile), f)
  {
  }

  lemma TrustedAtClose(cfg: Config, s: State, f: FileName)
    requires Inv(cfg, s) && s.pc == Closing && f in cfg.files
    ensures Trusted(cfg, s, f)
  {
    var i :| 0 <= i < |cfg.files| && cfg.files[i] == f;
    assert Trusted(cfg, s, cfg.files[i]);
  }

  /** A file whose start or completion could not be saved has failed, and the run with it. */
  lemma UnsavedFails(cfg: Config, s: State, file: FileName, step: TaskStep)
    requires TaskNext(cfg, s, file, step).Some? && (step == Start(false) || step == Complete(false))
    ensures TaskNext(cfg, s, file, step).value.tasks[file].Failing?
    ensures !RunSucceeded(TaskNext(cfg, s, file, step).value)
  {
    assert file in TaskNext(cfg, s, file, step).value.tasks;
  }

  // ---- What it returns with ----

  predicate InRun(pc: Pc) {
    pc.Listing? || Holding(pc)
  }

  /** The step with which a run succeeds: there is nothing to do, or the finalized marker is saved. */
  predicate Succeeds(s: State, step: Step) {
    || (step.Loop? && (step.loop.ListEmpty? || step.loop.ListOk?))
    || (s.pc == Committing && step == Finish(SaveOk))
  }

  /** A process that is to shut down ends, whatever the run's outcome. Otherwise a run that succeeds
      leaves the loop waiting; one that does not ends the process if it was the first, and leaves
      the loop waiting with the status Failed if it was not. */
  predicate Returned(s: State, t: State, success: bool) {
    && t.pc == (if s.shutdown then Down else if success || !s.initial then Parked else Down)
    && (t.pc == Parked ==> !t.initial && t.status == if success then Waiting else Broken)
  }

  lemma EndRunReturns(s: State, outcome: Outcome)
    requires outcome == OkTrue ==> s.status == Succeeded
    requires outcome == OkFalse ==> s.status == Broken
    ensures Returned(s, EndRun(s, outcome), outcome == OkTrue)
  {
  }

  lemma LoopReturns(s: State, step: LoopStep)
    requires InRun(s.pc) && LoopNext(s, step).Some? && !InRun(LoopNext(s, step).value.pc)
    ensures Returned(s, LoopNext(s, step).value, step.ListEmpty? || step.ListOk?)
    ensures step.ListOk? ==> Committed(LoopNext(s, step).value)
  {
    match step
    case ListEmpty => EndRunReturns(s.(status := Succeeded), OkTrue);
    case Abort => EndRunReturns(s, Err);
    case ListOk(readable) => ListReturns(s, readable);
  }

  lemma ListReturns(s: State, readable: bool)
    requires s.pc.Listing? && LoopNext(s, ListOk(readable)).Some? && !InRun(LoopNext(s, ListOk(readable)).value.pc)
    ensures Returned(s, LoopNext(s, ListOk(readable)).value, true) && Committed(LoopNext(s, ListOk(readable)).value)
  {
    var chosen := OpenMarker(s, s.pc.force, readable);
    OpenStays(s, s.pc.force, readable);
    OpenIsInitial(s, s.pc.force, readable);
    if Decide(chosen.memory) == Decision.Skip {
      SkipMeansCommitted(s, s.pc.force, readable);
      EndRunFinishes(chosen.(status := Succeeded), OkTrue);
      EndRunReturns(chosen.(status := Succeeded), OkTrue);
    } else {
      DecidedOpens(chosen);
      assert false;
    }
  }

  lemma OpenIsInitial(s: State, force: bool, readable: bool)
    ensures OpenMarker(s, force, readable).initial == s.initial
  {
    NewIsInitial(s, Forced);
    NewIsInitial(s, Absent);
    NewIsInitial(s, Unreadable);
  }

  lemma NewIsInitial(s: State, origin: Origin)
    ensures NewMarker(s, origin).initial == s.initial
  {
  }

  lemma DownloadGoesOn(cfg: Config, s: State, step: DownloadStep, t: State)
    requires DownloadNext(cfg, s, step) == Some(t) && !step.RejectFile?
    ensures InRun(t.pc)
  {
    if step.StartDownloads? || step.KeepFile? || step.FetchStart? {
      ChecksGoOn(cfg, s, step, t);
    } else if step.FetchPartial? || step.FetchOk? || step.SaveMetadata? {
      FetchGoesOn(cfg, s, step, t);
    } else {
      RestGoesOn(cfg, s, step, t);
    }
  }

  lemma TrySavePlace(s: State, saved: bool)
    ensures TrySave(s, saved).pc == s.pc
  {
  }

  lemma ChecksGoOn(cfg: Config, s: State, step: DownloadStep, t: State)
    requires step.StartDownloads? || step.KeepFile? || step.FetchStart?
    requires DownloadNext(cfg, s, step) == Some(t)
    ensures InRun(t.pc)
  {
    match step
    case StartDownloads(published, saved) =>
      TrySavePlace(s.(memory := StartDownload(s.memory, |cfg.files|, s.clock), published := published,
                      pc := Checking(0)), saved);
    case KeepFile(saved) => TrustPlace(s, s.pc.i, cfg.files[s.pc.i], saved);
    case FetchStart(saved) =>
      TrySavePlace(s.(memory := StartFileDownload(s.memory, cfg.files[s.pc.i], s.clock), pc := Fetching(s.pc.i)),
                   saved);
    case _ =>
  }

  lemma TrustPlace(s: State, i: nat, f: FileName, saved: bool)
    ensures TrySave(Trust(s, f).(pc := Checking(i + 1)), saved).pc == Checking(i + 1)
  {
    TrySavePlace(Trust(s, f).(pc := Checking(i + 1)), saved);
  }

  lemma FetchGoesOn(cfg: Config, s: State, step: DownloadStep, t: State)
    requires step.FetchPartial? || step.FetchOk? || step.SaveMetadata?
    requires DownloadNext(cfg, s, step) == Some(t)
    ensures InRun(t.pc)
  {
  }

  lemma RestGoesOn(cfg: Config, s: State, step: DownloadStep, t: State)
    requires step.AcceptFile? || step.FinishDownloads? || step.DownloadsOk?
    requires DownloadNext(cfg, s, step) == Some(t)
    ensures InRun(t.pc)
  {
    match step
    case AcceptFile(saved) => TrustPlace(s, s.pc.i, cfg.files[s.pc.i], saved);
    case FinishDownloads(saved) =>
      TrySavePlace(s.(memory := CompleteDownload(s.memory, s.clock), pc := Closing), saved);
    case _ =>
  }

  lemma DownloadReturns(cfg: Config, s: State, step: DownloadStep, t: State)
    requires InRun(s.pc) && DownloadNext(cfg, s, step) == Some(t) && !InRun(t.pc)
    ensures step.RejectFile? && Returned(s, t, false)
  {
    if !step.RejectFile? {
      DownloadGoesOn(cfg, s, step, t);
    } else {
      var f := cfg.files[s.pc.i];
      EndRunReturns(s.(metadata := s.metadata - {f}, disk := if step.removed then s.disk - {f} else s.disk), Err);
    }
  }

  lemma LastSaveReturns(cfg: Config, s: State)
    requires s.pc == Finalizing(false) || (s.pc == Committing && s.memory.overall == Completed)
    ensures SaveOkNext(cfg, s).Some? && Returned(s, SaveOkNext(cfg, s).value, s.pc == Committing)
    ensures s.pc == Committing ==> Committed(SaveOkNext(cfg, s).value)
  {
    if s.pc == Committing {
      EndRunReturns(Save(s).(status := Succeeded), OkTrue);
      EndRunFinishes(Save(s).(status := Succeeded), OkTrue);
    } else {
      EndRunReturns(Save(s).(status := Broken), OkFalse);
    }
  }

  lemma SaveReturns(cfg: Config, s: State)
    requires SaveOkNext(cfg, s).Some? && !InRun(SaveOkNext(cfg, s).value.pc)
    ensures s.pc == Finalizing(false) || s.pc == Committing
  {
  }

  lemma SpawnStays(cfg: Config, s: State)
    requires s.pc == Ready && s.memory.overall != Completed
    ensures SpawnNext(cfg, s).Some? && InRun(SpawnNext(cfg, s).value.pc)
  {
    if PendingFiles(s.memory, cfg.files) == [] {
      SpawnsNothing(cfg, s);
    } else {
      SpawnsTasks(cfg, s);
    }
  }

  lemma BeginStays(cfg: Config, s: State)
    requires s.pc == Protocol.Downloaded
    ensures BeginNext(cfg, s).Some? && InRun(BeginNext(cfg, s).value.pc)
  {
    BeginPlace(cfg, s);
  }

  lemma BroadcastReturns(s: State)
    requires BroadcastEndNext(s).Some? && !InRun(BroadcastEndNext(s).value.pc)
    ensures Returned(s, BroadcastEndNext(s).value, false)
  {
    EndRunReturns(s.(status := Broken), OkFalse);
  }

  lemma ConnectReturns(s: State, ok: bool)
    requires ConnectNext(s, ok).Some? && !InRun(ConnectNext(s, ok).value.pc)
    ensures !ok && Returned(s, ConnectNext(s, ok).value, false)
  {
    EndRunReturns(s.(status := Broken), OkFalse);
  }

  lemma FinishReturns(cfg: Config, s: State, step: FinishStep)
    requires s.pc == Ready ==> s.memory.overall != Completed
    requires s.pc == Committing ==> s.memory.overall == Completed
    requires InRun(s.pc) && FinishNext(cfg, s, step).Some? && !InRun(FinishNext(cfg, s, step).value.pc)
    ensures var success := s.pc == Committing && step == SaveOk;
            && Returned(s, FinishNext(cfg, s, step).value, success)
            && (success ==> Committed(FinishNext(cfg, s, step).value))
  {
    match step
    case BeginProcessing => BeginStays(cfg, s);
    case SaveOk => SaveReturns(cfg, s); LastSaveReturns(cfg, s);
    case Spawn => SpawnStays(cfg, s);
    case Join => JoinPlace(s);
    case Connect(ok) => ConnectReturns(s, ok);
    case Publish(ok) => PublishPlace(s, ok);
    case BroadcastEnd => BroadcastReturns(s);
  }

  /** The outcome of a run, however it ends but for a crash: it is a success exactly if there were no
      dumps, or the marker was found finalized, or its finalized marker has been saved; and in the
      last two cases a finalized marker is on disk. A failed connection, an exchange that did not
      confirm, a failed file, a rejected download and every early error are failures. */
  lemma RunReturns(cfg: Config, s: State, step: Step)
    requires ValidConfig(cfg) && Inv(cfg, s) && InRun(s.pc) && Next(cfg, s, step).Some?
    requires !InRun(Next(cfg, s, step).value.pc) && step != Outside(Crash)
    ensures var t := Next(cfg, s, step).value;
            Returned(s, t, Succeeds(s, step)) && (Succeeds(s, step) && step != Loop(ListEmpty) ==> Committed(t))
  {
    match step
    case Outside(event) => OutsideKeepsPc(s, event);
    case Loop(loop) => LoopReturns(s, loop);
    case Download(download) => DownloadReturns(cfg, s, download, Next(cfg, s, step).value);
    case File(file, task) => TaskKeepsPc(cfg, s, file, task);
    case Finish(finish) => FinishStepReturns(cfg, s, finish);
  }

  lemma FinishStepReturns(cfg: Config, s: State, step: FinishStep)
    requires Inv(cfg, s) && InRun(s.pc) && FinishNext(cfg, s, step).Some?
    requires !InRun(FinishNext(cfg, s, step).value.pc)
    ensures var success := s.pc == Committing && step == SaveOk;
            && Returned(s, FinishNext(cfg, s, step).value, success)
            && (success ==> Committed(FinishNext(cfg, s, step).value))
  {
    FinishReturns(cfg, s, step);
  }
}
