/** The processing phase's ends: starting it, settling it, and the broadcast. */
module ProtocolFinish {
  import opened Json
  import opened Marker
  import opened MarkerFacts
  import opened Protocol
  import opened ProtocolInv
  import opened ProtocolHistory
  import opened ProtocolSteps
  import opened ProtocolTasks

  /** Enough to show after a step that leaves files, entries and disk alone. */
  lemma SettledKeeps(cfg: Config, s: State, s': State)
    requires Lasting(cfg, s) && Quiet(s, s') && s'.tasks == map[] && s'.status == ExtractionStatus.Running
    requires DownloadOk(cfg, s) && ProgressOk(cfg, s) && PastDownload(s.pc)
    requires PastDownload(s'.pc) && !TasksRun(s'.pc) && IndexOk(cfg, s'.pc)
    requires s'.gen == s.gen < s'.nextGen && s'.origin == s.origin
    requires s'.disk == s.disk && s'.metadata == s.metadata && s'.published == s.published
    requires s'.memory.download.byFile == s.memory.download.byFile
             && s'.memory.processing.byFile == s.memory.processing.byFile
    requires MarkerOk(s'.memory, cfg.files, s'.clock) && Backed(cfg, s'.history, s'.gen, s'.memory)
    requires PhaseOk(cfg, s') && BroadcastOk(cfg, s')
    ensures Inv(cfg, s')
  {
    LastingQuiet(cfg, s, s');
    assert TasksOk(cfg, s');
    forall j | 0 <= j < Verified(cfg, s.pc) && j < |cfg.files| ensures Trusted(cfg, s', cfg.files[j]) {
      assert Trusted(cfg, s, cfg.files[j]);
    }
    assert ProgressOk(cfg, s') by {
      if s.durable.Some? && s.gen == s.durableGen {
        forall f ensures Kept(cfg, s', f) { assert Kept(cfg, s, f); }
      }
    }
  }

  // ---- Starting ----

  /** No broadcast of a generation can precede the start of its processing. */
  lemma StartBacked(cfg: Config, s: State)
    requires Backed(cfg, s.history, s.gen, s.memory) && MarkerOk(s.memory, cfg.files, s.clock)
    requires s.memory.processing.status == Pending
    ensures Backed(cfg, s.history, s.gen, StartProcessing(s.memory, |cfg.files|, s.clock))
  {
  }

  lemma BeginKeeps(cfg: Config, s: State)
    requires Inv(cfg, s) && s.pc == Downloaded
    ensures Inv(cfg, BeginNext(cfg, s).value)
  {
    if s.memory.processing.status == Pending {
      StartBacked(cfg, s);
      StartProcessingOk(s.memory, cfg.files, s.clock);
      SettledKeeps(cfg, s, s.(memory := StartProcessing(s.memory, |cfg.files|, s.clock), pc := Starting));
    } else if s.memory.processing.status == InProgress {
      ResumeProcessingOk(s.memory, cfg.files, s.clock);
      BackedSame(cfg, s.history, s.gen, s.memory, ResumeProcessing(s.memory, |cfg.files|));
      SettledKeeps(cfg, s,
                   s.(memory := ResumeProcessing(s.memory, |cfg.files|), progress := Rehydrated(cfg, s),
                      pc := Starting));
    } else {
      SettledKeeps(cfg, s, s.(pc := Ready));
    }
  }

  lemma SpawnKeeps(cfg: Config, s: State)
    requires Inv(cfg, s) && s.pc == Ready
    ensures Inv(cfg, SpawnNext(cfg, s).value)
  {
    var pending := PendingFiles(s.memory, cfg.files);
    forall f ensures f in pending <==> f in cfg.files && !IsCompleted(s.memory.processing.byFile, f) {
      PendingFilesSpec(s.memory, cfg.files, f);
    }
    if pending == [] {
      AllDoneKeeps(cfg, s);
    } else {
      SpawnTasksKeeps(cfg, s, pending);
    }
  }

  lemma SpawnTasksKeeps(cfg: Config, s: State, pending: seq<FileName>)
    requires Inv(cfg, s) && s.pc == Ready && pending != []
    requires forall f :: f in pending <==> f in cfg.files && !IsCompleted(s.memory.processing.byFile, f)
    ensures Inv(cfg, s.(tasks := map f | f in pending :: Queued, pc := Processing))
  {
    var s' := s.(tasks := map f | f in pending :: Queued, pc := Processing);
    assert pending[0] in pending;
    LastingQuiet(cfg, s, s');
    assert TasksOk(cfg, s');
    SpawnMemory(cfg, s, s');
  }

  lemma SpawnMemory(cfg: Config, s: State, s': State)
    requires MemoryOk(cfg, s) && s.pc == Ready && s'.pc == Processing && s.memory.processing.status == InProgress
    requires SameRun(s, s'.(pc := s.pc)) && Quiet(s, s')
    ensures MemoryOk(cfg, s')
  {
    forall j | 0 <= j < Verified(cfg, s.pc) && j < |cfg.files| ensures Trusted(cfg, s', cfg.files[j]) {
      assert Trusted(cfg, s, cfg.files[j]);
    }
    assert ProgressOk(cfg, s') by {
      if s.durable.Some? && s.gen == s.durableGen {
        forall f ensures Kept(cfg, s', f) { assert Kept(cfg, s, f); }
      }
    }
  }

  /** Every file is completed: the processing phase can be closed. */
  lemma AllDoneKeeps(cfg: Config, s: State)
    requires Inv(cfg, s) && (s.pc == Ready || s.pc == Processing) && AllCompleted(s.memory, cfg.files)
    ensures Inv(cfg, s.(memory := CompleteProcessing(s.memory, s.clock), tasks := map[], pc := Finalizing(true)))
  {
    CompleteProcessingOk(s.memory, cfg.files, s.clock);
    BackedSame(cfg, s.history, s.gen, s.memory, CompleteProcessing(s.memory, s.clock));
    SettledKeeps(cfg, s, s.(memory := CompleteProcessing(s.memory, s.clock), tasks := map[], pc := Finalizing(true)));
  }

  /** All tasks returned Ok and nobody asked to stop: no file was skipped, so all are completed. */
  lemma SucceededMeansAllCompleted(cfg: Config, s: State)
    requires TasksOk(cfg, s) && s.pc == Processing && RunSucceeded(s)
             && forall f :: f in s.tasks ==> Stopped(s.tasks[f])
    ensures AllCompleted(s.memory, cfg.files)
  {
    forall f | f in cfg.files ensures IsCompleted(s.memory.processing.byFile, f) {
      if f in s.tasks {
        assert TaskOk(cfg, s, f, s.tasks[f]);
      }
    }
  }

  lemma JoinKeeps(cfg: Config, s: State)
    requires Inv(cfg, s) && JoinNext(s).Some?
    ensures Inv(cfg, JoinNext(s).value)
  {
    if RunSucceeded(s) {
      SucceededMeansAllCompleted(cfg, s);
      AllDoneKeeps(cfg, s);
    } else {
      FailedJoinKeeps(cfg, s);
    }
  }

  /** A failed run goes on to its last save with what its tasks have left. */
  lemma FailedJoinKeeps(cfg: Config, s: State)
    requires Inv(cfg, s) && s.pc == Processing
    ensures Inv(cfg, s.(pc := Finalizing(false)))
  {
    var s' := s.(pc := Finalizing(false));
    RunningInv(cfg, s);
    LastingQuiet(cfg, s, s');
    JoinedMemory(cfg, s);
    JoinedTasks(cfg, s);
    RunningInv(cfg, s');
  }

  lemma JoinedMemory(cfg: Config, s: State)
    requires MemoryOk(cfg, s) && s.pc == Processing
    ensures MemoryOk(cfg, s.(pc := Finalizing(false)))
  {
    var s' := s.(pc := Finalizing(false));
    forall j | 0 <= j < |cfg.files| ensures Trusted(cfg, s', cfg.files[j]) {
      assert Trusted(cfg, s, cfg.files[j]);
    }
    assert ProgressOk(cfg, s') by {
      if s.durable.Some? && s.gen == s.durableGen {
        forall f ensures Kept(cfg, s', f) { assert Kept(cfg, s, f); }
      }
    }
  }

  lemma JoinedTasks(cfg: Config, s: State)
    requires TasksOk(cfg, s) && s.pc == Processing
    ensures TasksOk(cfg, s.(pc := Finalizing(false)))
  {
    var s' := s.(pc := Finalizing(false));
    forall f | f in s.tasks ensures TaskOk(cfg, s', f, s.tasks[f]) {
      assert TaskOk(cfg, s, f, s.tasks[f]);
    }
  }

  // ---- Mandatory saves ----

  /** One file per data type: the map of counts loses no file to another. */
  lemma RecordCountsOf(cfg: Config, m: Marker)
    requires ValidConfig(cfg) && EntriesOk(m, cfg.files) && AllCompleted(m, cfg.files)
    ensures CountsOf(cfg, m, RecordCounts(cfg, m))
  {
    forall f | f in cfg.files
      ensures cfg.kind[f] in RecordCounts(cfg, m)
              && RecordCounts(cfg, m)[cfg.kind[f]] == m.processing.byFile[f].records {
      assert f in m.processing.byFile && f in cfg.kind;
    }
  }

  ghost function ReadyToSend(cfg: Config, s: State): State {
    Save(s).(counts := RecordCounts(cfg, s.memory), pc := Connecting)
  }

  /** The snapshot just written certifies the broadcast. */
  lemma SavedCertifies(cfg: Config, s: State)
    requires ValidConfig(cfg) && MemoryOk(cfg, s) && s.pc == Finalizing(true)
    ensures BroadcastOk(cfg, ReadyToSend(cfg, s))
  {
    TotalsExact(s.memory, cfg.files, s.clock);
    RecordCountsOf(cfg, s.memory);
    var h' := Save(s).history;
    assert h'[..|s.history|] == s.history;
    assert Certificate(cfg, h', |s.history|, s.gen, s.memory.processing.startedAt.value, RecordCounts(cfg, s.memory));
  }

  lemma CertifiedKeeps(cfg: Config, s: State)
    requires ValidConfig(cfg) && Inv(cfg, s) && s.pc == Finalizing(true)
    ensures Inv(cfg, ReadyToSend(cfg, s))
  {
    SaveKeeps(cfg, s);
    SavedCertifies(cfg, s);
    ConnectingKeeps(cfg, Save(s), RecordCounts(cfg, s.memory));
  }

  lemma ConnectingKeeps(cfg: Config, s: State, counts: map<DataType, nat>)
    requires Inv(cfg, s) && s.pc == Finalizing(true) && BroadcastOk(cfg, s.(counts := counts, pc := Connecting))
    ensures Inv(cfg, s.(counts := counts, pc := Connecting))
  {
    SettledKeeps(cfg, s, s.(counts := counts, pc := Connecting));
  }

  /** The run gives up or is done: its status is settled and the process goes on. */
  lemma GiveUpKeeps(cfg: Config, s: State, status: ExtractionStatus, outcome: Outcome)
    requires Lasting(cfg, s) && (status == Broken || status == Succeeded)
    ensures Inv(cfg, EndRun(s.(status := status), outcome))
  {
    LastingQuiet(cfg, s, s.(status := status));
    EndRunKeeps(cfg, s.(status := status), outcome);
  }

  lemma StartedRunKeeps(cfg: Config, s: State)
    requires Inv(cfg, s) && s.pc == Starting
    ensures Inv(cfg, Save(s).(pc := Ready))
  {
    SaveKeeps(cfg, s);
    SettledKeeps(cfg, Save(s), Save(s).(pc := Ready));
  }

  lemma LastSaveKeeps(cfg: Config, s: State, status: ExtractionStatus, outcome: Outcome)
    requires Inv(cfg, s) && Holding(s.pc) && (status == Broken || status == Succeeded)
    ensures Inv(cfg, EndRun(Save(s).(status := status), outcome))
  {
    SaveKeeps(cfg, s);
    GiveUpKeeps(cfg, Save(s), status, outcome);
  }

  lemma SaveOkKeeps(cfg: Config, s: State)
    requires ValidConfig(cfg) && Inv(cfg, s) && SaveOkNext(cfg, s).Some?
    ensures Inv(cfg, SaveOkNext(cfg, s).value)
  {
    if s.pc == Finalizing(true) {
      CertifiedKeeps(cfg, s);
    } else if s.pc == Starting {
      StartedRunKeeps(cfg, s);
    } else if s.pc == Committing {
      LastSaveKeeps(cfg, s, Succeeded, OkTrue);
    } else {
      LastSaveKeeps(cfg, s, Broken, OkFalse);
    }
  }

  // ---- Broadcast ----

  lemma ConnectKeeps(cfg: Config, s: State)
    requires Inv(cfg, s) && s.pc == Connecting
    ensures Inv(cfg, s.(pc := Broadcasting(0, false)))
  {
    SettledKeeps(cfg, s, s.(pc := Broadcasting(0, false)));
  }

  lemma PublishLasting(cfg: Config, s: State, k: nat)
    requires Lasting(cfg, s) && s.gen < s.nextGen && Backed(cfg, s.history, s.gen, s.memory)
    requires s.pc.Broadcasting? && BroadcastOk(cfg, s) && k < |EXCHANGES|
    ensures Lasting(cfg, Log(s, Announcement(s, k)))
    ensures Backed(cfg, Log(s, Announcement(s, k)).history, s.gen, s.memory)
  {
    var e := Announcement(s, k);
    ChronicleGrows(cfg, s, e);
    BackedGrows(cfg, s.history, e, s.durableGen, s.durable.value);
    BackedGrows(cfg, s.history, e, s.gen, s.memory);
  }

  lemma PublishBroadcast(cfg: Config, s: State)
    requires s.pc.Broadcasting? && s.pc.k < |EXCHANGES| && BroadcastOk(cfg, s)
    ensures BroadcastOk(cfg, Log(s, Announcement(s, s.pc.k)).(pc := Broadcasting(s.pc.k + 1, s.pc.failed)))
  {
    var e := Announcement(s, s.pc.k);
    BroadcastGrows(cfg, s, e);
    var h' := s.history + [e];
    assert h'[|s.history|] == e;
    assert HasBroadcast(h', EXCHANGES[s.pc.k], s.gen);
    var startedAt, counts := s.memory.processing.startedAt.value, s.counts;
    assert exists k :: Certificate(cfg, h', k, s.gen, startedAt, counts) by {
      var k :| Certificate(cfg, s.history, k, s.gen, startedAt, counts);
      CertificateGrows(cfg, s.history, e, k, s.gen, startedAt, counts);
    }
    if !s.pc.failed {
      forall x | 0 <= x < s.pc.k + 1 ensures HasBroadcast(h', EXCHANGES[x], s.gen) {
        if x < s.pc.k {
          HasBroadcastGrows(s.history, e, EXCHANGES[x], s.gen);
        }
      }
    }
  }

  lemma PublishedKeeps(cfg: Config, s: State)
    requires Inv(cfg, s) && s.pc.Broadcasting? && s.pc.k < |EXCHANGES|
    ensures Inv(cfg, Log(s, Announcement(s, s.pc.k)).(pc := Broadcasting(s.pc.k + 1, s.pc.failed)))
  {
    var e := Announcement(s, s.pc.k);
    PublishLasting(cfg, s, s.pc.k);
    PublishBroadcast(cfg, s);
    LoggedFiles(cfg, s, e);
    SettledKeeps(cfg, Log(s, e), Log(s, e).(pc := Broadcasting(s.pc.k + 1, s.pc.failed)));
  }

  lemma UnpublishedKeeps(cfg: Config, s: State)
    requires Inv(cfg, s) && s.pc.Broadcasting? && s.pc.k < |EXCHANGES|
    ensures Inv(cfg, s.(pc := Broadcasting(s.pc.k + 1, true)))
  {
    SettledKeeps(cfg, s, s.(pc := Broadcasting(s.pc.k + 1, true)));
  }

  lemma PublishKeeps(cfg: Config, s: State, ok: bool)
    requires Inv(cfg, s) && s.pc.Broadcasting? && s.pc.k < |EXCHANGES|
    ensures PublishNext(s, ok).Some? && Inv(cfg, PublishNext(s, ok).value)
  {
    if ok {
      PublishedKeeps(cfg, s);
    } else {
      UnpublishedKeeps(cfg, s);
    }
  }

  lemma LoggedFiles(cfg: Config, s: State, e: Event)
    requires DownloadOk(cfg, s) && ProgressOk(cfg, s)
    ensures DownloadOk(cfg, Log(s, e)) && ProgressOk(cfg, Log(s, e))
  {
    var s' := Log(s, e);
    forall j | 0 <= j < Verified(cfg, s.pc) && j < |cfg.files| ensures Trusted(cfg, s', cfg.files[j]) {
      assert Trusted(cfg, s, cfg.files[j]);
    }
    if s.durable.Some? && s.gen == s.durableGen {
      forall f ensures Kept(cfg, s', f) { assert Kept(cfg, s, f); }
    }
  }

  /** Only a broadcast that reached all exchanges lets the extraction be finalized. */
  lemma CommitKeeps(cfg: Config, s: State)
    requires Inv(cfg, s) && s.pc == Broadcasting(|EXCHANGES|, false)
    ensures Inv(cfg, s.(memory := CompleteExtraction(s.memory), pc := Committing))
  {
    var s' := s.(memory := CompleteExtraction(s.memory), pc := Committing);
    CompleteExtractionOk(s.memory, cfg.files, s.clock);
    forall x | x in EXCHANGES ensures HasBroadcast(s.history, x, s.gen) {
      var i :| 0 <= i < |EXCHANGES| && EXCHANGES[i] == x;
      assert HasBroadcast(s.history, EXCHANGES[i], s.gen);
    }
    assert Backed(cfg, s.history, s.gen, s'.memory);
    assert BroadcastOk(cfg, s');
    SettledKeeps(cfg, s, s');
  }

  lemma BroadcastEndKeeps(cfg: Config, s: State)
    requires Inv(cfg, s) && BroadcastEndNext(s).Some?
    ensures Inv(cfg, BroadcastEndNext(s).value)
  {
    if s.pc == Broadcasting(|EXCHANGES|, false) {
      CommitKeeps(cfg, s);
    } else {
      GiveUpKeeps(cfg, s, Broken, OkFalse);
    }
  }

  lemma FinishKeeps(cfg: Config, s: State, step: FinishStep)
    requires ValidConfig(cfg) && Inv(cfg, s) && FinishNext(cfg, s, step).Some?
    ensures Inv(cfg, FinishNext(cfg, s, step).value)
  {
    match step
    case BeginProcessing => BeginKeeps(cfg, s);
    case SaveOk => SaveOkKeeps(cfg, s);
    case Spawn => SpawnKeeps(cfg, s);
    case Join => JoinKeeps(cfg, s);
    case Connect(ok) => if ok { ConnectKeeps(cfg, s); } else { GiveUpKeeps(cfg, s, Broken, OkFalse); }
    case Publish(ok) => PublishKeeps(cfg, s, ok);
    case BroadcastEnd => BroadcastEndKeeps(cfg, s);
  }
}
