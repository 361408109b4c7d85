/** Every step of the run protocol keeps the invariant. */
module ProtocolSteps {
  import opened Json
  import opened Marker
  import opened MarkerFacts
  import opened Protocol
  import opened ProtocolInv
  import opened ProtocolHistory

  // ---- Saving and ending ----

  lemma SaveTasks(cfg: Config, s: State)
    requires TasksOk(cfg, s)
    ensures TasksOk(cfg, Save(s))
  {
    var e := Saved(s.gen, s.memory);
    forall f | f in s.tasks ensures TaskOk(cfg, Save(s), f, s.tasks[f]) {
      TaskOkGrows(cfg, s, e, f, s.tasks[f]);
    }
  }

  lemma SaveFiles(cfg: Config, s: State)
    requires DownloadOk(cfg, s)
    ensures DownloadOk(cfg, Save(s)) && ProgressOk(cfg, Save(s))
  {
    forall j | 0 <= j < Verified(cfg, s.pc) && j < |cfg.files| ensures Trusted(cfg, Save(s), cfg.files[j]) {
      assert Trusted(cfg, s, cfg.files[j]);
    }
  }

  lemma SaveMemory(cfg: Config, s: State)
    requires MemoryOk(cfg, s)
    ensures MemoryOk(cfg, Save(s))
  {
    var e := Saved(s.gen, s.memory);
    BackedGrows(cfg, s.history, e, s.gen, s.memory);
    SaveFiles(cfg, s);
    BroadcastGrows(cfg, s, e);
    assert BroadcastOk(cfg, Save(s));
  }

  lemma SaveKeeps(cfg: Config, s: State)
    requires Inv(cfg, s) && Holding(s.pc)
    ensures Inv(cfg, Save(s))
  {
    ChronicleGrows(cfg, s, Saved(s.gen, s.memory));
    SaveTasks(cfg, s);
    SaveMemory(cfg, s);
  }

  lemma BroadcastGrows(cfg: Config, s: State, e: Event)
    requires BroadcastOk(cfg, s)
    ensures BroadcastOk(cfg, s.(history := s.history + [e]))
  {
    if Broadcastable(s.pc) {
      var startedAt, counts := s.memory.processing.startedAt.value, s.counts;
      var k :| Certificate(cfg, s.history, k, s.gen, startedAt, counts);
      CertificateGrows(cfg, s.history, e, k, s.gen, startedAt, counts);
      if s.pc.Broadcasting? && !s.pc.failed {
        forall x | 0 <= x < s.pc.k && x < |EXCHANGES| ensures HasBroadcast(s.history + [e], EXCHANGES[x], s.gen) {
          HasBroadcastGrows(s.history, e, EXCHANGES[x], s.gen);
        }
      }
    }
  }

  lemma TrySaveKeeps(cfg: Config, s: State, saved: bool)
    requires Inv(cfg, s) && Holding(s.pc)
    ensures Inv(cfg, TrySave(s, saved))
  {
    if saved {
      SaveKeeps(cfg, s);
    }
  }

  /** What outlives a run: the history and the disk. */
  ghost predicate Lasting(cfg: Config, s: State) {
    Chronicle(cfg, s) && DurableOk(cfg, s)
  }

  /** The step touches neither the history nor the marker on disk; counters only grow. */
  ghost predicate Quiet(s: State, s': State) {
    && s'.history == s.history && s'.durable == s.durable && s'.durableGen == s.durableGen
    && s.nextGen <= s'.nextGen && s.nextAttempt <= s'.nextAttempt && s.clock <= s'.clock
  }

  lemma LastingQuiet(cfg: Config, s: State, s': State)
    requires Lasting(cfg, s) && Quiet(s, s')
    ensures Lasting(cfg, s')
  {
    ChronicleLater(cfg, s, s');
  }

  /** Between runs the invariant says no more than that. */
  lemma IdleKeeps(cfg: Config, s: State, s': State)
    requires Lasting(cfg, s) && Quiet(s, s')
    requires !Holding(s'.pc) && s'.tasks == map[] && StatusOk(s')
    ensures Inv(cfg, s')
  {
    LastingQuiet(cfg, s, s');
    assert TasksOk(cfg, s');
  }

  /** A run may end at any point with its status settled; an Err of a later run settles it. */
  lemma EndRunKeeps(cfg: Config, s: State, outcome: Outcome)
    requires Chronicle(cfg, s) && DurableOk(cfg, s)
    requires outcome == Err || s.shutdown || s.status == Waiting || s.status == Broken || s.status == Succeeded
    ensures Inv(cfg, EndRun(s, outcome))
  {
    IdleKeeps(cfg, s, EndRun(s, outcome));
  }

  // ---- Outside the run ----

  /** What a run holds in memory depends on these fields alone. */
  ghost predicate SameRun(s: State, s': State) {
    && s'.pc == s.pc && s'.memory == s.memory && s'.gen == s.gen && s'.origin == s.origin
    && s'.disk == s.disk && s'.metadata == s.metadata && s'.published == s.published && s'.counts == s.counts
  }

  lemma MemoryFrame(cfg: Config, s: State, s': State)
    requires MemoryOk(cfg, s) && SameRun(s, s') && Quiet(s, s')
    ensures MemoryOk(cfg, s')
  {
    assert DownloadOk(cfg, s') by {
      forall j | 0 <= j < Verified(cfg, s.pc) && j < |cfg.files| ensures Trusted(cfg, s', cfg.files[j]) {
        assert Trusted(cfg, s, cfg.files[j]);
      }
    }
    assert ProgressOk(cfg, s') by {
      if s.durable.Some? && s.gen == s.durableGen {
        forall f ensures Kept(cfg, s', f) {
          assert Kept(cfg, s, f);
        }
      }
    }
    assert BroadcastOk(cfg, s');
  }

  lemma TasksFrame(cfg: Config, s: State, s': State)
    requires TasksOk(cfg, s) && SameRun(s, s') && s'.tasks == s.tasks && s'.history == s.history
    requires s.nextAttempt <= s'.nextAttempt && (s.shutdown ==> s'.shutdown)
    ensures TasksOk(cfg, s')
  {
    forall f | f in s'.tasks ensures TaskOk(cfg, s', f, s'.tasks[f]) {
      assert TaskOk(cfg, s, f, s.tasks[f]);
    }
  }

  /** Time passing, a signal and a trigger change nothing that a run relies on. */
  lemma AmbientKeeps(cfg: Config, s: State, s': State)
    requires Inv(cfg, s)
    requires s' == s.(clock := s'.clock, shutdown := s'.shutdown, trigger := s'.trigger)
    requires s.clock <= s'.clock && (s.shutdown ==> s'.shutdown)
    ensures Inv(cfg, s')
  {
    LastingQuiet(cfg, s, s');
    TasksFrame(cfg, s, s');
    if Holding(s.pc) {
      MemoryFrame(cfg, s, s');
    }
  }

  lemma OutsideKeeps(cfg: Config, s: State, step: OutsideStep)
    requires Inv(cfg, s) && OutsideNext(s, step).Some?
    ensures Inv(cfg, OutsideNext(s, step).value)
  {
    var s' := OutsideNext(s, step).value;
    if step == Crash {
      IdleKeeps(cfg, s, s');
    } else {
      AmbientKeeps(cfg, s, s');
    }
  }

  /** The marker a run has chosen: sound, backed, and either the one on disk or of a new generation. */
  ghost predicate Chosen(cfg: Config, s: State) {
    && Lasting(cfg, s) && s.tasks == map[] && s.status == Running
    && s.gen < s.nextGen && MarkerOk(s.memory, cfg.files, s.clock) && Backed(cfg, s.history, s.gen, s.memory)
    && (s.durable.Some? && s.gen == s.durableGen ==> s.memory == s.durable.value)
    && (s.origin == Restarted && s.durable.Some? ==> forall f :: !IsCompleted(s.durable.value.processing.byFile, f))
    && (s.origin == Resumed ==> s.durable.Some? && s.gen == s.durableGen)
    && (s.origin == Absent ==> s.durable == None)
  }

  lemma NewMarkerChosen(cfg: Config, s: State, origin: Origin)
    requires Lasting(cfg, s) && s.tasks == map[] && s.status == Running && origin != Resumed
    requires origin == Restarted && s.durable.Some? ==> forall f :: !IsCompleted(s.durable.value.processing.byFile, f)
    requires origin == Absent ==> s.durable == None
    ensures Chosen(cfg, NewMarker(s, origin))
  {
    NewOk(cfg.files, s.clock);
    LastingQuiet(cfg, s, NewMarker(s, origin));
    forall j | 0 <= j < |s.history| && s.history[j].ExtractionComplete? ensures s.history[j].gen != s.nextGen {
      assert s.history[j] in s.history;
    }
  }

  lemma ResumedChosen(cfg: Config, s: State)
    requires Lasting(cfg, s) && s.tasks == map[] && s.status == Running && s.durable.Some?
    ensures Chosen(cfg, s.(memory := s.durable.value, gen := s.durableGen, origin := Resumed))
  {
    LastingQuiet(cfg, s, s.(memory := s.durable.value, gen := s.durableGen, origin := Resumed));
  }

  lemma NewIsNew(s: State, origin: Origin)
    ensures NewMarker(s, origin).memory == New()
  {
  }

  lemma OpenMarkerNew(s: State, force: bool, readable: bool)
    ensures OpenMarker(s, force, readable).origin != Resumed ==> OpenMarker(s, force, readable).memory == New()
  {
    NewIsNew(s, Forced);
    NewIsNew(s, Absent);
    NewIsNew(s, Unreadable);
  }

  lemma OpenMarkerChosen(cfg: Config, s: State, force: bool, readable: bool)
    requires Lasting(cfg, s) && s.tasks == map[] && s.status == Running
    ensures Chosen(cfg, OpenMarker(s, force, readable))
  {
    if force {
      NewMarkerChosen(cfg, s, Forced);
    } else if s.durable == None {
      NewMarkerChosen(cfg, s, Absent);
    } else if !readable {
      NewMarkerChosen(cfg, s, Unreadable);
    } else {
      ResumedChosen(cfg, s);
    }
  }

  /** A run that has chosen its marker is about to download. */
  lemma OpeningKeeps(cfg: Config, s: State)
    requires Chosen(cfg, s) && s.memory.overall != Completed
    ensures Inv(cfg, s.(pc := Opening))
  {
    var s' := s.(pc := Opening);
    LastingQuiet(cfg, s, s');
    assert TasksOk(cfg, s');
    assert ProgressOk(cfg, s');
    assert DownloadOk(cfg, s') && PhaseOk(cfg, s') && BroadcastOk(cfg, s');
  }

  lemma RestartKeeps(cfg: Config, s: State)
    requires Chosen(cfg, s) && Decide(s.memory) == Reprocess
    requires s.origin != Resumed ==> s.memory == New()
    ensures Inv(cfg, NewMarker(s, Restarted).(pc := Opening))
  {
    DecisionIs(s.memory);
    NewMarkerChosen(cfg, s, Restarted);
    OpeningKeeps(cfg, NewMarker(s, Restarted));
  }

  lemma DecidedKeeps(cfg: Config, s: State)
    requires Chosen(cfg, s)
    requires s.origin != Resumed ==> s.memory == New()
    ensures Inv(cfg, Decided(s))
  {
    match Decide(s.memory)
    case Skip => EndRunKeeps(cfg, s.(status := Succeeded), OkTrue);
    case Reprocess => RestartKeeps(cfg, s);
    case Continue =>
      SkipIffCompleted(s.memory, cfg.files, s.clock);
      OpeningKeeps(cfg, s);
  }

  lemma LoopTopKeeps(cfg: Config, s: State, status: ExtractionStatus)
    requires Lasting(cfg, s) && (status == Waiting || status == Broken || status == Succeeded)
    ensures Inv(cfg, LoopTop(s, status))
  {
    IdleKeeps(cfg, s, LoopTop(s, status));
  }

  lemma BootKeeps(cfg: Config, s: State, force: bool, readable: bool)
    requires Lasting(cfg, s) && s.tasks == map[] && s.pc == Down
    ensures Inv(cfg, LoopNext(s, Boot(force, readable)).value)
  {
    IdleKeeps(cfg, s, LoopNext(s, Boot(force, readable)).value);
  }

  lemma TimerKeeps(cfg: Config, s: State, downloader: bool, readable: bool)
    requires Lasting(cfg, s) && StatusOk(s) && s.tasks == map[] && s.pc == Parked
    ensures Inv(cfg, LoopNext(s, Timer(downloader, readable)).value)
  {
    if downloader {
      IdleKeeps(cfg, s, LoadMetadata(s, readable).(pc := Entering(false)));
    } else {
      LoopTopKeeps(cfg, s, Broken);
    }
  }

  lemma TakeTriggerKeeps(cfg: Config, s: State, downloader: bool, readable: bool)
    requires Lasting(cfg, s) && StatusOk(s) && s.tasks == map[] && s.pc == Parked && s.trigger.Some?
    ensures Inv(cfg, LoopNext(s, TakeTrigger(downloader, readable)).value)
  {
    if downloader {
      IdleKeeps(cfg, s, LoadMetadata(s, readable).(trigger := None, pc := Entering(s.trigger.value)));
    } else {
      LastingQuiet(cfg, s, s.(trigger := None));
      LoopTopKeeps(cfg, s.(trigger := None), Broken);
    }
  }

  lemma EnterKeeps(cfg: Config, s: State)
    requires Lasting(cfg, s) && StatusOk(s) && s.tasks == map[] && LoopNext(s, Enter).Some?
    ensures Inv(cfg, LoopNext(s, Enter).value)
  {
    if s.shutdown {
      EndRunKeeps(cfg, s, OkFalse);
    } else {
      IdleKeeps(cfg, s, LoopNext(s, Enter).value);
    }
  }

  lemma LoopKeeps(cfg: Config, s: State, step: LoopStep)
    requires Inv(cfg, s) && LoopNext(s, step).Some?
    ensures Inv(cfg, LoopNext(s, step).value)
  {
    match step
    case Boot(force, readable) => BootKeeps(cfg, s, force, readable);
    case Timer(downloader, readable) => TimerKeeps(cfg, s, downloader, readable);
    case TakeTrigger(downloader, readable) => TakeTriggerKeeps(cfg, s, downloader, readable);
    case SeeShutdown => IdleKeeps(cfg, s, s.(pc := Down));
    case Enter => EnterKeeps(cfg, s);
    case ListEmpty => EndRunKeeps(cfg, s.(status := Succeeded), OkTrue);
    case ListOk(readable) =>
      OpenMarkerChosen(cfg, s, s.pc.force, readable);
      OpenMarkerNew(s, s.pc.force, readable);
      DecidedKeeps(cfg, OpenMarker(s, s.pc.force, readable));
    case Abort => EndRunKeeps(cfg, s, Err);
  }
}
