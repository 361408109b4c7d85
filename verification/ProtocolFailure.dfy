/** Where a run may fail, and how the answers of the broker to its broadcast decide its end. */
module ProtocolFailure {
  import opened Json
  import opened Marker
  import opened Protocol
  import opened ProtocolOutcome
  import Pipeline

  // ---- The broadcast ----

  /** The steps of a broadcast to the exchanges that are left, with the broker's answers. */
  function Publishing(answers: seq<bool>): seq<Step> {
    if answers == [] then [Finish(BroadcastEnd)] else [Finish(Publish(answers[0]))] + Publishing(answers[1..])
  }

  predicate AllConfirmed(answers: seq<bool>) {
    forall i :: 0 <= i < |answers| ==> answers[i]
  }

  /** What is confirmed of it, from the exchange at k on. */
  function Sent(s: State, k: nat, answers: seq<bool>): seq<Event>
    requires k + |answers| <= |EXCHANGES|
    decreases |answers|
  {
    if answers == [] then []
    else (if answers[0] then [Announcement(s, k)] else []) + Sent(s, k + 1, answers[1..])
  }

  /** How a broadcast of these answers may end: if all confirm, and none failed before, the marker is
      finalized and its save is what is left of the run; otherwise the run fails, and the marker stays
      as it was. The history gains what was confirmed, and the marker on disk is not touched. */
  ghost predicate Decides(s: State, t: State, k: nat, failed: bool, answers: seq<bool>)
    requires k + |answers| == |EXCHANGES|
  {
    && t.history == s.history + Sent(s, k, answers) && t.durable == s.durable
    && (if AllConfirmed(answers) && !failed then t.pc == Committing && t.memory == CompleteExtraction(s.memory)
        else Returned(s, t, false) && t.memory == s.memory)
  }

  /** Every exchange is served, whatever the answers before, and then the answers decide. */
  lemma {:induction false} BroadcastDecides(cfg: Config, s: State, k: nat, failed: bool, answers: seq<bool>)
    requires s.pc == Broadcasting(k, failed) && k + |answers| == |EXCHANGES|
    ensures Run(cfg, s, Publishing(answers)).Some?
    ensures Decides(s, Run(cfg, s, Publishing(answers)).value, k, failed, answers)
    decreases |answers|, 1
  {
    if answers == [] {
      BroadcastEnds(s, failed);
      EndsNext(cfg, s);
    } else {
      Answered(s, k, failed, answers[0]);
      PublishesNext(cfg, s, answers, PublishNext(s, answers[0]).value);
      RestDecides(cfg, s, PublishNext(s, answers[0]).value, k, failed, answers);
    }
  }

  lemma {:induction false} RestDecides(cfg: Config, s: State, t: State, k: nat, failed: bool, answers: seq<bool>)
    requires answers != [] && k + |answers| == |EXCHANGES| && OnlyAnswered(s, t)
    requires t.pc == Broadcasting(k + 1, failed || !answers[0])
    requires t.history == s.history + (if answers[0] then [Announcement(s, k)] else [])
    ensures Run(cfg, t, Publishing(answers[1..])).Some?
    ensures Decides(s, Run(cfg, t, Publishing(answers[1..])).value, k, failed, answers)
    decreases |answers|, 0
  {
    BroadcastDecides(cfg, t, k + 1, failed || !answers[0], answers[1..]);
    FirstDecides(s, t, Run(cfg, t, Publishing(answers[1..])).value, k, failed, answers);
  }

  lemma RunsFirst(cfg: Config, s: State, step: Step, rest: seq<Step>, t: State)
    requires Next(cfg, s, step) == Some(t)
    ensures Run(cfg, s, [step] + rest) == Run(cfg, t, rest)
  {
    assert ([step] + rest)[1..] == rest;
  }

  lemma PublishesNext(cfg: Config, s: State, answers: seq<bool>, t: State)
    requires answers != [] && PublishNext(s, answers[0]) == Some(t)
    ensures Run(cfg, s, Publishing(answers)) == Run(cfg, t, Publishing(answers[1..]))
  {
    RunsFirst(cfg, s, Finish(Publish(answers[0])), Publishing(answers[1..]), t);
  }

  lemma EndsNext(cfg: Config, s: State)
    requires BroadcastEndNext(s).Some?
    ensures Run(cfg, s, Publishing([])) == BroadcastEndNext(s)
  {
    var t := BroadcastEndNext(s).value;
    assert Publishing([]) == [Finish(BroadcastEnd)] + [];
    RunsFirst(cfg, s, Finish(BroadcastEnd), [], t);
  }

  /** Nothing that the rest of the run depends on differs, but for the history. */
  ghost predicate OnlyAnswered(s: State, t: State) {
    && t.memory == s.memory && t.gen == s.gen && t.runStarted == s.runStarted && t.counts == s.counts
    && t.durable == s.durable && t.shutdown == s.shutdown && t.initial == s.initial
  }

  lemma Answered(s: State, k: nat, failed: bool, ok: bool)
    requires s.pc == Broadcasting(k, failed) && k < |EXCHANGES|
    ensures PublishNext(s, ok).Some?
    ensures var t := PublishNext(s, ok).value;
            && OnlyAnswered(s, t) && t.pc == Broadcasting(k + 1, failed || !ok)
            && t.history == s.history + (if ok then [Announcement(s, k)] else [])
  {
  }

  lemma FirstDecides(s: State, t: State, end: State, k: nat, failed: bool, answers: seq<bool>)
    requires answers != [] && k + |answers| == |EXCHANGES| && OnlyAnswered(s, t)
    requires t.history == s.history + (if answers[0] then [Announcement(s, k)] else [])
    requires Decides(t, end, k + 1, failed || !answers[0], answers[1..])
    ensures Decides(s, end, k, failed, answers)
  {
    FirstAnswer(answers);
    SentAlike(s, t, k + 1, answers[1..]);
    assert t.history + Sent(s, k + 1, answers[1..]) == s.history + Sent(s, k, answers);
  }

  lemma FirstAnswer(answers: seq<bool>)
    requires answers != []
    ensures AllConfirmed(answers) <==> answers[0] && AllConfirmed(answers[1..])
  {
    if AllConfirmed(answers[1..]) && answers[0] {
      forall i | 0 <= i < |answers| ensures answers[i] {
        assert i > 0 ==> answers[i] == answers[1..][i - 1];
      }
    }
  }

  /** What is announced is fixed before the first exchange is served. */
  lemma {:induction false} SentAlike(s: State, t: State, k: nat, answers: seq<bool>)
    requires k + |answers| <= |EXCHANGES|
    requires t.memory == s.memory && t.gen == s.gen && t.runStarted == s.runStarted && t.counts == s.counts
    ensures Sent(t, k, answers) == Sent(s, k, answers)
    decreases |answers|
  {
    if answers != [] {
      SentAlike(s, t, k + 1, answers[1..]);
    }
  }

  lemma BroadcastEnds(s: State, failed: bool)
    requires s.pc == Broadcasting(|EXCHANGES|, failed)
    ensures BroadcastEndNext(s).Some?
    ensures var t := BroadcastEndNext(s).value;
            && t.history == s.history && t.durable == s.durable
            && (if !failed then t.pc == Committing && t.memory == CompleteExtraction(s.memory)
                else Returned(s, t, false) && t.memory == s.memory)
  {
    if failed {
      EndRunReturns(s.(status := Broken), OkFalse);
      EndRunKeeps(s.(status := Broken), OkFalse);
    }
  }

  lemma EndRunKeeps(s: State, outcome: Outcome)
    ensures var t := EndRun(s, outcome); t.history == s.history && t.durable == s.durable && t.memory == s.memory
  {
  }

  /** A connection that fails ends the run before anything is broadcast; one that succeeds begins with
      the first exchange. */
  lemma ConnectionDecides(s: State, ok: bool)
    requires s.pc == Connecting
    ensures ConnectNext(s, ok).Some?
    ensures var t := ConnectNext(s, ok).value;
            && t.history == s.history && t.memory == s.memory && t.durable == s.durable
            && (if ok then t.pc == Broadcasting(0, false) else Returned(s, t, false))
  {
    if !ok {
      EndRunReturns(s.(status := Broken), OkFalse);
      EndRunKeeps(s.(status := Broken), OkFalse);
    }
  }

  // ---- Where a run may fail ----

  /** Finding no files ends a run, and does so only where the files are listed. */
  lemma NoFilesEnds(s: State)
    ensures LoopNext(s, ListEmpty).Some? <==> s.pc.Listing?
    ensures s.pc.Listing? ==>
              var t := LoopNext(s, ListEmpty).value;
              Returned(s, t, true) && t.memory == s.memory && t.durable == s.durable && t.history == s.history
  {
    EndRunReturns(s.(status := Succeeded), OkTrue);
    EndRunKeeps(s.(status := Succeeded), OkTrue);
  }

  /** Listing, downloading, and each mandatory save may fail, which fails the run and writes nothing. */
  lemma EarlyErrors(s: State)
    requires s.pc.Listing? || s.pc == Opening || s.pc.Checking? || s.pc.Fetching? || s.pc.Fetched? || s.pc == Closing
             || s.pc.Downloaded? || s.pc == Starting || s.pc.Finalizing? || s.pc == Committing
    ensures LoopNext(s, Abort).Some?
    ensures var t := LoopNext(s, Abort).value;
            Returned(s, t, false) && t.memory == s.memory && t.durable == s.durable && t.history == s.history
  {
    EndRunReturns(s, Err);
    EndRunKeeps(s, Err);
  }

  /** Every file's task may fail until its file is announced, and one that has failed is done with its
      file: the run cannot succeed. */
  lemma TaskMayFail(cfg: Config, s: State, file: FileName)
    requires file in s.tasks && s.pc == Processing
    requires s.tasks[file] == Queued || s.tasks[file] == Admitted || s.tasks[file].Active?
    ensures TaskNext(cfg, s, file, TaskStep.Fail).Some?
    ensures var t := TaskNext(cfg, s, file, TaskStep.Fail).value;
            t.tasks[file].Failing? && !RunSucceeded(t) && t.memory == s.memory && t.history == s.history
  {
  }

  /** The stages of a failed task go on, also after the other tasks are joined: they may still confirm
      batches and write the file's progress, but never its completion. */
  lemma FailedTaskDrains(cfg: Config, s: State, file: FileName, action: Pipeline.Step, saved: bool)
    requires file in s.tasks && s.tasks[file].Failing? && s.tasks[file].draining.Some?
    requires s.pc == Processing || s.pc == Finalizing(false)
    ensures var pipe := s.tasks[file].draining.value.pipe;
            && (TaskNext(cfg, s, file, Pipe(action)).Some? <==> Pipeline.Enabled(cfg.pipeline, pipe, action))
            && (TaskNext(cfg, s, file, Pipe(action)).Some? ==>
                  TaskNext(cfg, s, file, Pipe(action)).value.tasks[file].Failing?)
    ensures TaskNext(cfg, s, file, Progress(saved)).Some?
    ensures TaskNext(cfg, s, file, Announce) == None && TaskNext(cfg, s, file, Complete(saved)) == None
  {
  }

  /** The run as a whole succeeds exactly if no task failed and no shutdown was requested; otherwise it
      returns after one more save, with the marker in memory as the tasks left it. */
  lemma JoinDecides(cfg: Config, s: State)
    requires s.pc == Processing && forall f :: f in s.tasks ==> Stopped(s.tasks[f])
    ensures JoinNext(s).Some?
    ensures var t := JoinNext(s).value;
            if !s.shutdown && (forall f :: f in s.tasks ==> s.tasks[f].Skipped? || s.tasks[f].Done?)
            then t.pc == Finalizing(true) && t.memory == CompleteProcessing(s.memory, s.clock)
            else t.pc == Finalizing(false) && t.memory == s.memory && Unsuccessful(cfg, t)
  {
    if JoinNext(s).value.pc == Finalizing(false) {
      LastSaveFails(cfg, JoinNext(s).value);
    }
  }

  ghost predicate Unsuccessful(cfg: Config, s: State) {
    SaveOkNext(cfg, s).Some?
    && var t := SaveOkNext(cfg, s).value;
       Returned(s, t, false) && t.durable == Some(s.memory) && t.history == Save(s).history
  }

  lemma LastSaveFails(cfg: Config, s: State)
    requires s.pc == Finalizing(false)
    ensures Unsuccessful(cfg, s)
  {
    EndRunReturns(Save(s).(status := Broken), OkFalse);
    EndRunKeeps(Save(s).(status := Broken), OkFalse);
  }

  // ---- Shutdown ----

  /** A shutdown may be requested whenever the process runs. */
  lemma SignalAnyTime(s: State)
    ensures OutsideNext(s, Signal).Some? <==> s.pc != Down
  {
  }

  predicate IsBoot(step: Step) {
    step.Loop? && step.loop.Boot?
  }

  /** Once requested it is forgotten only by the next process, which starts without one. */
  lemma ShutdownIsKept(cfg: Config, s: State, step: Step, t: State)
    requires Next(cfg, s, step) == Some(t)
    ensures t.shutdown == ((s.shutdown && !IsBoot(step)) || step == Outside(Signal))
  {
    match step
    case Outside(event) => OutsideAndShutdown(s, event, t);
    case Loop(loop) => LoopKeepsShutdown(s, loop, t);
    case Download(download) => DownloadKeepsShutdown(cfg, s, download, t);
    case File(file, task) => TaskKeepsShutdown(cfg, s, file, task, t);
    case Finish(finish) => FinishKeepsShutdown(cfg, s, finish, t);
  }

  lemma OutsideAndShutdown(s: State, step: OutsideStep, t: State)
    requires OutsideNext(s, step) == Some(t)
    ensures t.shutdown == (s.shutdown || step == Signal)
  {
  }

  lemma EndRunKeepsShutdown(s: State, outcome: Outcome)
    ensures EndRun(s, outcome).shutdown == s.shutdown
  {
  }

  lemma LoopKeepsShutdown(s: State, step: LoopStep, t: State)
    requires LoopNext(s, step) == Some(t)
    ensures t.shutdown == (s.shutdown && !step.Boot?)
  {
    match step
    case Enter => EndRunKeepsShutdown(s, OkFalse);
    case ListEmpty => EndRunKeepsShutdown(s.(status := Succeeded), OkTrue);
    case ListOk(readable) => ChoiceKeepsShutdown(s, s.pc.force, readable, OpenMarker(s, s.pc.force, readable));
    case Abort => EndRunKeepsShutdown(s, Err);
    case Boot(force, readable) => BootClearsShutdown(s, step, t);
    case Timer(downloader, readable) => TimerKeepsShutdown(s, step, t);
    case TakeTrigger(downloader, readable) => TriggerKeepsShutdown(s, step, t);
    case SeeShutdown => assert t == s.(pc := Down);
  }

  lemma BootClearsShutdown(s: State, step: LoopStep, t: State)
    requires step.Boot? && LoopNext(s, step) == Some(t)
    ensures !t.shutdown
  {
  }

  lemma LoopTopKeepsShutdown(s: State, status: ExtractionStatus)
    ensures LoopTop(s, status).shutdown == s.shutdown
  {
  }

  lemma LoadKeepsShutdown(s: State, readable: bool)
    ensures LoadMetadata(s, readable).shutdown == s.shutdown
  {
  }

  lemma TimerKeepsShutdown(s: State, step: LoopStep, t: State)
    requires step.Timer? && LoopNext(s, step) == Some(t)
    ensures t.shutdown == s.shutdown
  {
    if step.downloader {
      LoadKeepsShutdown(s, step.metaReadable);
    } else {
      LoopTopKeepsShutdown(s, Broken);
    }
  }

  lemma TriggerKeepsShutdown(s: State, step: LoopStep, t: State)
    requires step.TakeTrigger? && LoopNext(s, step) == Some(t)
    ensures t.shutdown == s.shutdown
  {
    if step.downloader {
      TakenKeepsShutdown(s, step, t);
    } else {
      LoopTopKeepsShutdown(s.(trigger := None), Broken);
    }
  }

  lemma TakenKeepsShutdown(s: State, step: LoopStep, t: State)
    requires step.TakeTrigger? && step.downloader && LoopNext(s, step) == Some(t)
    ensures t.shutdown == s.shutdown
  {
    LoadKeepsShutdown(s, step.metaReadable);
  }

  lemma ChoiceKeepsShutdown(s: State, force: bool, readable: bool, chosen: State)
    requires chosen == OpenMarker(s, force, readable)
    ensures Decided(chosen).shutdown == s.shutdown
  {
    OpenKeepsShutdown(s, force, readable, chosen);
    DecisionKeepsShutdown(chosen);
  }

  lemma OpenKeepsShutdown(s: State, force: bool, readable: bool, chosen: State)
    requires chosen == OpenMarker(s, force, readable)
    ensures chosen.shutdown == s.shutdown
  {
    NewKeepsShutdown(s, Forced);
    NewKeepsShutdown(s, Absent);
    NewKeepsShutdown(s, Unreadable);
  }

  lemma NewKeepsShutdown(s: State, origin: Origin)
    ensures NewMarker(s, origin).shutdown == s.shutdown
  {
  }

  lemma DecisionKeepsShutdown(s: State)
    ensures Decided(s).shutdown == s.shutdown
  {
    EndRunKeepsShutdown(s.(status := Succeeded), OkTrue);
  }

  lemma DownloadKeepsShutdown(cfg: Config, s: State, step: DownloadStep, t: State)
    requires DownloadNext(cfg, s, step) == Some(t)
    ensures t.shutdown == s.shutdown
  {
  }

  lemma TaskKeepsShutdown(cfg: Config, s: State, file: FileName, step: TaskStep, t: State)
    requires TaskNext(cfg, s, file, step) == Some(t)
    ensures t.shutdown == s.shutdown
  {
    match step
    case Start(saved) => StartKeepsShutdown(cfg, s, file, saved, t);
    case Pipe(action) => PipeKeepsShutdown(cfg, s, file, action, t);
    case Progress(saved) => assert ProgressNext(s, file, saved) == Some(t);
    case Announce => assert AnnounceNext(s, file) == Some(t);
    case Complete(saved) => assert CompleteNext(s, file, saved) == Some(t);
    case _ =>
  }

  lemma StartKeepsShutdown(cfg: Config, s: State, file: FileName, saved: bool, t: State)
    requires file in s.tasks && StartNext(cfg, s, file, saved) == Some(t)
    ensures t.shutdown == s.shutdown
  {
  }

  lemma PipeKeepsShutdown(cfg: Config, s: State, file: FileName, action: Pipeline.Step, t: State)
    requires file in s.tasks && PipeNext(cfg, s, file, action) == Some(t)
    ensures t.shutdown == s.shutdown
  {
  }

  lemma FinishKeepsShutdown(cfg: Config, s: State, step: FinishStep, t: State)
    requires FinishNext(cfg, s, step) == Some(t)
    ensures t.shutdown == s.shutdown
  {
    match step
    case BeginProcessing => BeginKeepsShutdown(cfg, s, t);
    case SaveOk => SaveKeepsShutdown(cfg, s, t);
    case Spawn => SpawnKeepsShutdown(cfg, s, t);
    case Join => JoinKeepsShutdown(s, t);
    case Connect(ok) => ConnectKeepsShutdown(s, ok, t);
    case Publish(ok) => PublishKeepsShutdown(s, ok, t);
    case BroadcastEnd => BroadcastKeepsShutdown(s, t);
  }

  lemma BeginKeepsShutdown(cfg: Config, s: State, t: State)
    requires BeginNext(cfg, s) == Some(t)
    ensures t.shutdown == s.shutdown
  {
    if s.memory.processing.status == Pending {
      BeginPending(cfg, s, t);
    } else if s.memory.processing.status == InProgress {
      BeginResumed(cfg, s, t);
    } else {
      BeginReady(cfg, s, t);
    }
  }

  lemma BeginPending(cfg: Config, s: State, t: State)
    requires s.memory.processing.status == Pending && BeginNext(cfg, s) == Some(t)
    ensures t.shutdown == s.shutdown
  {
  }

  lemma BeginResumed(cfg: Config, s: State, t: State)
    requires s.memory.processing.status == InProgress && BeginNext(cfg, s) == Some(t)
    ensures t.shutdown == s.shutdown
  {
  }

  lemma BeginReady(cfg: Config, s: State, t: State)
    requires s.memory.processing.status != Pending && s.memory.processing.status != InProgress
    requires BeginNext(cfg, s) == Some(t)
    ensures t.shutdown == s.shutdown
  {
  }

  lemma SaveKeepsShutdown(cfg: Config, s: State, t: State)
    requires SaveOkNext(cfg, s) == Some(t)
    ensures t.shutdown == s.shutdown
  {
    match s.pc
    case Starting =>
    case Finalizing(success) => FinalSaveKeepsShutdown(cfg, s, success, t);
    case Committing => EndRunKeepsShutdown(Save(s).(status := Succeeded), OkTrue);
    case _ =>
  }

  lemma FinalSaveKeepsShutdown(cfg: Config, s: State, success: bool, t: State)
    requires s.pc == Finalizing(success) && SaveOkNext(cfg, s) == Some(t)
    ensures t.shutdown == s.shutdown
  {
    EndRunKeepsShutdown(Save(s).(status := Broken), OkFalse);
  }

  lemma SpawnKeepsShutdown(cfg: Config, s: State, t: State)
    requires SpawnNext(cfg, s) == Some(t)
    ensures t.shutdown == s.shutdown
  {
    if PendingFiles(s.memory, cfg.files) != [] {
      SpawnPending(cfg, s, t);
    } else {
      SpawnNothing(cfg, s, t);
    }
  }

  lemma SpawnPending(cfg: Config, s: State, t: State)
    requires PendingFiles(s.memory, cfg.files) != [] && SpawnNext(cfg, s) == Some(t)
    ensures t.shutdown == s.shutdown
  {
  }

  lemma SpawnNothing(cfg: Config, s: State, t: State)
    requires PendingFiles(s.memory, cfg.files) == [] && SpawnNext(cfg, s) == Some(t)
    ensures t.shutdown == s.shutdown
  {
    EndRunKeepsShutdown(s.(status := Succeeded), OkTrue);
  }

  lemma JoinKeepsShutdown(s: State, t: State)
    requires JoinNext(s) == Some(t)
    ensures t.shutdown == s.shutdown
  {
  }

  lemma ConnectKeepsShutdown(s: State, ok: bool, t: State)
    requires ConnectNext(s, ok) == Some(t)
    ensures t.shutdown == s.shutdown
  {
    EndRunKeepsShutdown(s.(status := Broken), OkFalse);
  }

  lemma PublishKeepsShutdown(s: State, ok: bool, t: State)
    requires PublishNext(s, ok) == Some(t)
    ensures t.shutdown == s.shutdown
  {
  }

  lemma BroadcastKeepsShutdown(s: State, t: State)
    requires BroadcastEndNext(s) == Some(t)
    ensures t.shutdown == s.shutdown
  {
    EndRunKeepsShutdown(s.(status := Broken), OkFalse);
  }
}
