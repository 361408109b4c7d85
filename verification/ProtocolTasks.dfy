/** The concurrent file tasks keep the invariant, in any interleaving. */
module ProtocolTasks {
  import opened Json
  import opened Marker
  import opened MarkerFacts
  import opened Protocol
  import opened ProtocolInv
  import opened ProtocolHistory
  import opened ProtocolSteps
  import opened ProtocolDownload
  import Pipeline
  import PipelineProofs

  /** While tasks run: the parts of the invariant, in the form the steps below need. */
  ghost predicate RunOk(cfg: Config, s: State) {
    Lasting(cfg, s) && TasksRun(s.pc) && s.status == ExtractionStatus.Running && TasksOk(cfg, s) && MemoryOk(cfg, s)
  }

  lemma RunningInv(cfg: Config, s: State)
    requires TasksRun(s.pc)
    ensures Inv(cfg, s) <==> RunOk(cfg, s)
  {
  }

  /** An attempt number that no other task uses. */
  ghost predicate FreshAmong(s: State, f: FileName, t: Task) {
    HasAttempt(t) ==>
      && AttemptOf(t).id < s.nextAttempt
      && forall g :: g in s.tasks && g != f && HasAttempt(s.tasks[g]) ==> AttemptOf(s.tasks[g]).id != AttemptOf(t).id
  }

  /** One task moves and nothing else does. */
  lemma SetTaskKeeps(cfg: Config, s: State, f: FileName, t: Task)
    requires RunOk(cfg, s) && f in s.tasks && TaskOk(cfg, s, f, t) && FreshAmong(s, f, t)
    ensures RunOk(cfg, SetTask(s, f, t))
  {
    var s' := SetTask(s, f, t);
    LastingQuiet(cfg, s, s');
    MemoryFrame(cfg, s, s');
    SetTaskTasks(cfg, s, f, t);
  }

  lemma SetTaskTasks(cfg: Config, s: State, f: FileName, t: Task)
    requires TasksOk(cfg, s) && TasksRun(s.pc) && f in s.tasks && TaskOk(cfg, s, f, t) && FreshAmong(s, f, t)
    ensures TasksOk(cfg, SetTask(s, f, t))
  {
    var s' := SetTask(s, f, t);
    forall g | g in s'.tasks ensures g in cfg.files && TaskOk(cfg, s', g, s'.tasks[g]) {
      if g != f {
        assert TaskOk(cfg, s, g, s.tasks[g]);
      }
      TaskOkIgnoresTasks(cfg, s, s'.tasks, g, s'.tasks[g]);
    }
  }

  lemma TaskOkIgnoresTasks(cfg: Config, s: State, tasks: map<FileName, Task>, g: FileName, t: Task)
    requires TaskOk(cfg, s, g, t)
    ensures TaskOk(cfg, s.(tasks := tasks), g, t)
  {
  }

  lemma AdmittedOk(cfg: Config, s: State, f: FileName)
    requires TasksOk(cfg, s) && f in s.tasks && s.tasks[f] == Queued
    ensures TaskOk(cfg, s, f, Admitted)
  {
    assert TaskOk(cfg, s, f, s.tasks[f]);
  }

  lemma FailingOk(cfg: Config, s: State, f: FileName)
    requires TasksOk(cfg, s) && f in s.tasks
    ensures TaskOk(cfg, s, f, FailingTask(s.tasks[f])) && FreshAmong(s, f, FailingTask(s.tasks[f]))
  {
    assert TaskOk(cfg, s, f, s.tasks[f]);
  }

  // ---- Events ----

  /** An event that is not data of a running attempt, or a broadcast, disturbs nothing. */
  lemma EventKeeps(cfg: Config, s: State, e: Event)
    requires RunOk(cfg, s) && Numbered(e, s.nextGen, s.nextAttempt) && (e.FileComplete? || e.Confirmed?)
    requires e.Confirmed? ==> forall g :: g in s.tasks && s.tasks[g].Active? ==> s.tasks[g].attempt.id != e.attempt
    ensures RunOk(cfg, Log(s, e))
  {
    LastingEvent(cfg, s, e);
    MemoryEvent(cfg, s, e);
    TasksEvent(cfg, s, e);
  }

  lemma TasksEvent(cfg: Config, s: State, e: Event)
    requires TasksOk(cfg, s) && (e.FileComplete? || e.Confirmed?)
    requires e.Confirmed? ==> forall g :: g in s.tasks && s.tasks[g].Active? ==> s.tasks[g].attempt.id != e.attempt
    ensures TasksOk(cfg, Log(s, e))
  {
    var s' := Log(s, e);
    forall g | g in s'.tasks ensures TaskOk(cfg, s', g, s'.tasks[g]) {
      assert TaskOk(cfg, s, g, s.tasks[g]);
      TaskOkGrows(cfg, s, e, g, s.tasks[g]);
    }
  }

  lemma LastingEvent(cfg: Config, s: State, e: Event)
    requires Lasting(cfg, s) && Numbered(e, s.nextGen, s.nextAttempt) && (e.FileComplete? || e.Confirmed?)
    ensures Lasting(cfg, Log(s, e))
  {
    ChronicleGrows(cfg, s, e);
    if s.durable.Some? {
      BackedGrows(cfg, s.history, e, s.durableGen, s.durable.value);
    }
  }

  lemma MemoryEvent(cfg: Config, s: State, e: Event)
    requires MemoryOk(cfg, s) && (e.FileComplete? || e.Confirmed?)
    ensures MemoryOk(cfg, Log(s, e))
  {
    var s' := Log(s, e);
    BackedGrows(cfg, s.history, e, s.gen, s.memory);
    BroadcastGrows(cfg, s, e);
    assert DownloadOk(cfg, s') by {
      forall j | 0 <= j < Verified(cfg, s.pc) && j < |cfg.files| ensures Trusted(cfg, s', cfg.files[j]) {
        assert Trusted(cfg, s, cfg.files[j]);
      }
    }
    assert ProgressOk(cfg, s') by {
      if s.durable.Some? && s.gen == s.durableGen {
        forall f ensures Kept(cfg, s', f) { assert Kept(cfg, s, f); }
      }
    }
  }

  // ---- The marker entry of one file ----

  /** The marker changes in the processing entry of one file, and in totals. */
  ghost predicate EntryEffect(m: Marker, m': Marker, f: FileName) {
    && m'.download == m.download && m'.overall == m.overall
    && m'.processing.startedAt == m.processing.startedAt && m'.processing.status == m.processing.status
    && !IsCompleted(m.processing.byFile, f)
    && SameExcept(m.processing.byFile, m'.processing.byFile, f)
  }

  /** The file's task and its marker entry move together. */
  lemma EntryKeeps(cfg: Config, s: State, s': State, f: FileName)
    requires RunOk(cfg, s) && f in s.tasks && f in s'.tasks
    requires s' == s.(memory := s'.memory, nextAttempt := s'.nextAttempt, tasks := s.tasks[f := s'.tasks[f]])
    requires s.nextAttempt <= s'.nextAttempt
    requires EntryEffect(s.memory, s'.memory, f) && MarkerOk(s'.memory, cfg.files, s.clock)
    requires TaskOk(cfg, s', f, s'.tasks[f]) && FreshAmong(s, f, s'.tasks[f])
    requires IsCompleted(s'.memory.processing.byFile, f) ==>
               && Delivered(cfg, s.history, s.gen, f, s'.memory.processing.byFile[f])
               && f in s.disk && s'.memory.processing.byFile[f].source == Some(cfg.hash(s.disk[f]))
    ensures RunOk(cfg, s')
  {
    LastingQuiet(cfg, s, s');
    EntryMemory(cfg, s, s', f);
    EntryTasks(cfg, s, s', f);
  }

  lemma EntryMemory(cfg: Config, s: State, s': State, f: FileName)
    requires MemoryOk(cfg, s) && TasksRun(s.pc)
    requires SameRun(s, s'.(memory := s.memory)) && Quiet(s, s')
    requires EntryEffect(s.memory, s'.memory, f) && MarkerOk(s'.memory, cfg.files, s'.clock)
    requires IsCompleted(s'.memory.processing.byFile, f) ==>
               && Delivered(cfg, s.history, s.gen, f, s'.memory.processing.byFile[f])
               && f in s.disk && s'.memory.processing.byFile[f].source == Some(cfg.hash(s.disk[f]))
    ensures MemoryOk(cfg, s')
  {
    assert DownloadOk(cfg, s') by {
      forall j | 0 <= j < Verified(cfg, s.pc) && j < |cfg.files| ensures Trusted(cfg, s', cfg.files[j]) {
        assert Trusted(cfg, s, cfg.files[j]);
      }
    }
    assert ProgressOk(cfg, s') by {
      if s.durable.Some? && s.gen == s.durableGen {
        forall g ensures Kept(cfg, s', g) { assert Kept(cfg, s, g); }
      }
    }
    EntryBacked(cfg, s, s'.memory, f);
  }

  lemma EntryBacked(cfg: Config, s: State, m': Marker, f: FileName)
    requires Backed(cfg, s.history, s.gen, s.memory) && EntryEffect(s.memory, m', f)
    requires IsCompleted(m'.processing.byFile, f) ==> Delivered(cfg, s.history, s.gen, f, m'.processing.byFile[f])
    ensures Backed(cfg, s.history, s.gen, m')
  {
    forall g | IsCompleted(m'.processing.byFile, g)
      ensures Delivered(cfg, s.history, s.gen, g, m'.processing.byFile[g]) {
      if g != f {
        assert IsCompleted(s.memory.processing.byFile, g);
      }
    }
  }

  lemma EntryTasks(cfg: Config, s: State, s': State, f: FileName)
    requires TasksOk(cfg, s) && TasksRun(s.pc) && f in s.tasks && f in s'.tasks
    requires s' == s.(memory := s'.memory, nextAttempt := s'.nextAttempt, tasks := s.tasks[f := s'.tasks[f]])
    requires s.nextAttempt <= s'.nextAttempt && EntryEffect(s.memory, s'.memory, f)
    requires TaskOk(cfg, s', f, s'.tasks[f]) && FreshAmong(s, f, s'.tasks[f])
    ensures TasksOk(cfg, s')
  {
    forall g | g in s'.tasks ensures g in cfg.files && TaskOk(cfg, s', g, s'.tasks[g]) {
      if g != f {
        assert TaskOk(cfg, s, g, s.tasks[g]);
        EntryOther(cfg, s, s', f, g);
      }
    }
  }

  lemma EntryOther(cfg: Config, s: State, s': State, f: FileName, g: FileName)
    requires g in s.tasks && TaskOk(cfg, s, g, s.tasks[g]) && g != f
    requires EntryEffect(s.memory, s'.memory, f)
    requires s'.history == s.history && s'.disk == s.disk && s'.gen == s.gen && s'.shutdown == s.shutdown
    ensures TaskOk(cfg, s', g, s.tasks[g])
  {
  }

  // ---- The steps ----

  lemma TrySaveRun(cfg: Config, s: State, saved: bool)
    requires RunOk(cfg, s)
    ensures RunOk(cfg, TrySave(s, saved))
  {
    RunningInv(cfg, s);
    TrySaveKeeps(cfg, s, saved);
    RunningInv(cfg, TrySave(s, saved));
  }

  lemma StartedEffect(m: Marker, files: seq<FileName>, clock: Time, f: FileName)
    requires MarkerOk(m, files, clock) && m.processing.status == InProgress && f in files
             && !IsCompleted(m.processing.byFile, f)
    ensures var m' := StartFileProcessing(m, f, clock);
            EntryEffect(m, m', f) && MarkerOk(m', files, clock) && !IsCompleted(m'.processing.byFile, f)
  {
    StartFileProcessingOk(m, files, clock, f);
  }

  lemma ProgressEffect(m: Marker, files: seq<FileName>, clock: Time, f: FileName, records: nat, batches: nat)
    requires MarkerOk(m, files, clock) && f in m.processing.byFile && !IsCompleted(m.processing.byFile, f)
    ensures var m' := UpdateFileProgress(m, f, records, records, batches);
            && EntryEffect(m, m', f) && MarkerOk(m', files, clock)
            && f in m'.processing.byFile
            && m'.processing.byFile[f]
              == m.processing.byFile[f].(records := records, messages := records, batches := batches)
  {
    UpdateFileProgressOk(m, files, clock, f, records, batches);
  }

  lemma CompletedEffect(m: Marker, files: seq<FileName>, clock: Time, f: FileName, records: nat)
    requires MarkerOk(m, files, clock) && m.processing.status == InProgress && f in m.processing.byFile
             && !IsCompleted(m.processing.byFile, f)
    ensures var m' := CompleteFileProcessing(m, f, records, clock);
            && EntryEffect(m, m', f) && MarkerOk(m', files, clock)
            && f in m'.processing.byFile
              && m'.processing.byFile[f] == FinishedProgress(m.processing.byFile[f], records, clock)
  {
    CompleteFileProcessingOk(m, files, clock, f, records);
  }

  /** The entry start_file_processing writes carries the checksum of the bytes that are on disk. */
  lemma StartedEntry(cfg: Config, s: State, f: FileName)
    requires DownloadOk(cfg, s) && TasksRun(s.pc) && f in cfg.files
    ensures f in s.disk && EntryOf(cfg, Started(s, f), f, NewAttempt(cfg, s, f))
  {
    var i :| 0 <= i < |cfg.files| && cfg.files[i] == f;
    assert Trusted(cfg, s, cfg.files[i]);
  }

  /** The marker part of a start, with the task still admitted. */
  lemma StartedKeeps(cfg: Config, s: State, f: FileName, task: Task)
    requires RunOk(cfg, s) && f in s.tasks && s.tasks[f] == Admitted && (task == Admitted || task == Failing(None))
    ensures RunOk(cfg, SetTask(Started(s, f), f, task))
  {
    assert TaskOk(cfg, s, f, s.tasks[f]);
    StartedEffect(s.memory, cfg.files, s.clock, f);
    EntryKeeps(cfg, s, SetTask(Started(s, f), f, task), f);
  }

  lemma StartSavedKeeps(cfg: Config, s: State, f: FileName)
    requires RunOk(cfg, s) && f in s.tasks && s.tasks[f] == Admitted && f in s.disk
    ensures RunOk(cfg, SetTask(Save(Started(s, f)), f, Active(NewAttempt(cfg, s, f))))
  {
    StartedKeeps(cfg, s, f, Admitted);
    assert SetTask(Started(s, f), f, Admitted) == Started(s, f) by { assert s.tasks[f := Admitted] == s.tasks; }
    StartedTask(cfg, s, f);
    SaveThenSet(cfg, Started(s, f), f, Active(NewAttempt(cfg, s, f)));
  }

  lemma SaveThenSet(cfg: Config, s: State, f: FileName, t: Task)
    requires RunOk(cfg, s) && f in s.tasks && TaskOk(cfg, Save(s), f, t) && FreshAmong(Save(s), f, t)
    ensures RunOk(cfg, SetTask(Save(s), f, t))
  {
    TrySaveRun(cfg, s, true);
    SetTaskKeeps(cfg, Save(s), f, t);
  }

  /** The new attempt has a fresh number, no data yet and a pipeline at its start. */
  lemma StartedTask(cfg: Config, s: State, f: FileName)
    requires Chronicle(cfg, s) && DownloadOk(cfg, s) && TasksRun(s.pc) && TasksOk(cfg, s) && f in s.tasks && f in s.disk
    ensures TaskOk(cfg, Save(Started(s, f)), f, Active(NewAttempt(cfg, s, f)))
    ensures FreshAmong(Save(Started(s, f)), f, Active(NewAttempt(cfg, s, f)))
  {
    StartedEntry(cfg, s, f);
    StartedAttempt(cfg, s, f);
    assert EntryOf(cfg, Save(Started(s, f)), f, NewAttempt(cfg, s, f));
    StartedFresh(cfg, s, f);
  }

  lemma StartedAttempt(cfg: Config, s: State, f: FileName)
    requires Chronicle(cfg, s) && f in s.disk
    ensures AttemptOk(cfg, Save(Started(s, f)), NewAttempt(cfg, s, f))
  {
    DataOfFresh(s.history, s.nextGen, s.nextAttempt);
    DataOfGrows(s.history, Saved(s.gen, Started(s, f).memory), s.nextAttempt);
    PipelineProofs.InitKeeps(cfg.pipeline, cfg.parse(s.disk[f]));
  }

  lemma StartedFresh(cfg: Config, s: State, f: FileName)
    requires AttemptsDistinct(s) && f in s.disk
    ensures FreshAmong(Save(Started(s, f)), f, Active(NewAttempt(cfg, s, f)))
  {
  }

  lemma SameTasks(s: State, m: Marker, f: FileName)
    requires f in s.tasks
    ensures s.(memory := m) == s.(memory := m, nextAttempt := s.nextAttempt, tasks := s.tasks[f := s.tasks[f]])
  {
    assert s.tasks[f := s.tasks[f]] == s.tasks;
  }

  /** The entry of a running task changes, its task does not. */
  lemma CountedKeeps(cfg: Config, s: State, f: FileName, m: Marker)
    requires RunOk(cfg, s) && f in s.tasks && EntryEffect(s.memory, m, f) && MarkerOk(m, cfg.files, s.clock)
    requires TaskOk(cfg, s.(memory := m), f, s.tasks[f]) && FreshAmong(s, f, s.tasks[f])
             && !IsCompleted(m.processing.byFile, f)
    ensures RunOk(cfg, s.(memory := m))
  {
    SameTasks(s, m, f);
    EntryKeeps(cfg, s, s.(memory := m), f);
  }

  lemma ProgressKeeps(cfg: Config, s: State, f: FileName, saved: bool)
    requires RunOk(cfg, s) && f in s.tasks && HasAttempt(s.tasks[f])
    ensures ProgressNext(s, f, saved).Some? && RunOk(cfg, ProgressNext(s, f, saved).value)
  {
    var pipe := AttemptOf(s.tasks[f]).pipe;
    ProgressEntry(cfg, s, f);
    CountedKeeps(cfg, s, f, UpdateFileProgress(s.memory, f, pipe.received, pipe.received, pipe.batches));
    TrySaveRun(cfg, s.(memory := UpdateFileProgress(s.memory, f, pipe.received, pipe.received, pipe.batches)), saved);
  }

  lemma ProgressEntry(cfg: Config, s: State, f: FileName)
    requires RunOk(cfg, s) && f in s.tasks && HasAttempt(s.tasks[f])
    ensures var pipe := AttemptOf(s.tasks[f]).pipe;
            var m' := UpdateFileProgress(s.memory, f, pipe.received, pipe.received, pipe.batches);
            && EntryEffect(s.memory, m', f) && MarkerOk(m', cfg.files, s.clock) && !IsCompleted(m'.processing.byFile, f)
            && TaskOk(cfg, s.(memory := m'), f, s.tasks[f]) && FreshAmong(s, f, s.tasks[f])
  {
    var a := AttemptOf(s.tasks[f]);
    assert TaskOk(cfg, s, f, s.tasks[f]);
    assert EntryOf(cfg, s, f, a);
    ProgressEffect(s.memory, cfg.files, s.clock, f, a.pipe.received, a.pipe.batches);
    ProgressTask(cfg, s, UpdateFileProgress(s.memory, f, a.pipe.received, a.pipe.received, a.pipe.batches), f);
  }

  lemma ProgressTask(cfg: Config, s: State, m': Marker, f: FileName)
    requires TasksOk(cfg, s) && f in s.tasks && HasAttempt(s.tasks[f]) && EntryOf(cfg, s, f, AttemptOf(s.tasks[f]))
    requires f in m'.processing.byFile
    requires m'.processing.byFile[f].status == InProgress
          && m'.processing.byFile[f].startedAt == s.memory.processing.byFile[f].startedAt
          && m'.processing.byFile[f].source == s.memory.processing.byFile[f].source
    ensures TaskOk(cfg, s.(memory := m'), f, s.tasks[f]) && FreshAmong(s, f, s.tasks[f])
  {
    assert TaskOk(cfg, s, f, s.tasks[f]);
    assert EntryOf(cfg, s.(memory := m'), f, AttemptOf(s.tasks[f]));
  }

  lemma AnnounceKeeps(cfg: Config, s: State, f: FileName)
    requires RunOk(cfg, s) && f in s.tasks && AnnounceNext(s, f).Some?
    ensures RunOk(cfg, AnnounceNext(s, f).value)
  {
    var a := s.tasks[f].attempt;
    var e := FileComplete(a.id, s.gen, f, a.start, a.src, a.pipe.parsed);
    EventKeeps(cfg, s, e);
    AnnouncedTask(cfg, s, f);
    SetTaskKeeps(cfg, Log(s, e), f, Announced(a));
  }

  /** file_complete goes out when the whole pipeline returned Ok, so all data is confirmed by then. */
  lemma AnnouncedTask(cfg: Config, s: State, f: FileName)
    requires TasksOk(cfg, s) && f in s.tasks && AnnounceNext(s, f).Some?
    ensures var a := s.tasks[f].attempt;
            TaskOk(cfg, Log(s, FileComplete(a.id, s.gen, f, a.start, a.src, a.pipe.parsed)), f, Announced(a))
  {
    assert TaskOk(cfg, s, f, s.tasks[f]);
    var a := s.tasks[f].attempt;
    PipelineProofs.InvDelivers(cfg.pipeline, a.pipe, cfg.parse(a.src));
    var h' := s.history + [FileComplete(a.id, s.gen, f, a.start, a.src, a.pipe.parsed)];
    assert h'[..|s.history|] == s.history;
    assert DeliveredAt(cfg, h', |s.history|, s.gen, f,
                       FinishedProgress(s.memory.processing.byFile[f], a.pipe.parsed, 0));
  }

  lemma CompleteKeeps(cfg: Config, s: State, f: FileName, saved: bool)
    requires RunOk(cfg, s) && f in s.tasks && CompleteNext(s, f, saved).Some?
    ensures RunOk(cfg, CompleteNext(s, f, saved).value)
  {
    CompletedEntry(cfg, s, f);
    var completed := s.(memory := CompleteFileProcessing(s.memory, f, s.tasks[f].attempt.pipe.parsed, s.clock));
    var s' := SetTask(completed, f, if saved then Done else Failing(None));
    EntryKeeps(cfg, s, s', f);
    TrySaveRun(cfg, s', saved);
  }

  lemma CompletedEntry(cfg: Config, s: State, f: FileName)
    requires RunOk(cfg, s) && f in s.tasks && s.tasks[f].Announced?
    ensures var m' := CompleteFileProcessing(s.memory, f, s.tasks[f].attempt.pipe.parsed, s.clock);
            && EntryEffect(s.memory, m', f) && MarkerOk(m', cfg.files, s.clock) && IsCompleted(m'.processing.byFile, f)
            && Delivered(cfg, s.history, s.gen, f, m'.processing.byFile[f])
            && f in s.disk && m'.processing.byFile[f].source == Some(cfg.hash(s.disk[f]))
  {
    assert TaskOk(cfg, s, f, s.tasks[f]);
    var a := s.tasks[f].attempt;
    assert EntryOf(cfg, s, f, a);
    CompletedEffect(s.memory, cfg.files, s.clock, f, a.pipe.parsed);
    FinishedDelivered(cfg, s.history, s.gen, f, s.memory.processing.byFile[f], a.pipe.parsed, 0, s.clock);
  }

  /** When the file was finished is not part of what was delivered. */
  lemma FinishedDelivered(cfg: Config, h: seq<Event>, gen: nat, f: FileName, p: FileProgress, records: nat, now: Time,
                          now': Time)
    requires Delivered(cfg, h, gen, f, FinishedProgress(p, records, now))
    ensures Delivered(cfg, h, gen, f, FinishedProgress(p, records, now'))
  {
    var i :| DeliveredAt(cfg, h, i, gen, f, FinishedProgress(p, records, now));
    assert DeliveredAt(cfg, h, i, gen, f, FinishedProgress(p, records, now'));
  }

  // ---- The pipeline inside a task ----

  lemma PipeKeeps(cfg: Config, s: State, f: FileName, action: Pipeline.Step)
    requires RunOk(cfg, s) && f in s.tasks && PipeNext(cfg, s, f, action).Some?
    ensures RunOk(cfg, PipeNext(cfg, s, f, action).value)
  {
    if s.tasks[f].Active? {
      ActivePipeKeeps(cfg, s, f, action);
    } else {
      DrainingPipeKeeps(cfg, s, f, action);
    }
  }

  /** A failed task's stages drain: its confirmed batches are nobody else's data. */
  lemma DrainingMoves(cfg: Config, s: State, f: FileName, moved: Attempt)
    requires TasksOk(cfg, s) && f in s.tasks && HasAttempt(s.tasks[f]) && !s.tasks[f].Active?
    requires moved == AttemptOf(s.tasks[f]).(pipe := moved.pipe)
    ensures EntryOf(cfg, s, f, moved) && FreshAmong(s, f, Failing(Some(moved)))
  {
    assert TaskOk(cfg, s, f, s.tasks[f]);
  }

  lemma DrainingConfirm(cfg: Config, s: State, f: FileName, t: Task)
    requires RunOk(cfg, s) && f in s.tasks && HasAttempt(s.tasks[f]) && !s.tasks[f].Active?
    requires t.Failing? && t.draining.Some? && EntryOf(cfg, s, f, t.draining.value) && FreshAmong(s, f, t)
    ensures var a := AttemptOf(s.tasks[f]); RunOk(cfg, SetTask(Log(s, Confirmed(a.id, a.pipe.inflight)), f, t))
  {
    var a := AttemptOf(s.tasks[f]);
    var e := Confirmed(a.id, a.pipe.inflight);
    EventKeeps(cfg, s, e);
    assert EntryOf(cfg, Log(s, e), f, t.draining.value);
    SetTaskKeeps(cfg, Log(s, e), f, t);
  }

  lemma DrainingPipeKeeps(cfg: Config, s: State, f: FileName, action: Pipeline.Step)
    requires RunOk(cfg, s) && f in s.tasks && !s.tasks[f].Active? && PipeNext(cfg, s, f, action).Some?
    ensures RunOk(cfg, PipeNext(cfg, s, f, action).value)
  {
    var a := AttemptOf(s.tasks[f]);
    var t := Failing(Some(a.(pipe := Pipeline.Apply(cfg.pipeline, a.pipe, action))));
    DrainingMoves(cfg, s, f, a.(pipe := Pipeline.Apply(cfg.pipeline, a.pipe, action)));
    if action == Pipeline.Publisher(Pipeline.Confirm) {
      DrainingConfirm(cfg, s, f, t);
    } else {
      SetTaskKeeps(cfg, s, f, t);
      EffectIsCount(cfg, s, f, a, action, t);
    }
  }

  /** Nothing in the invariant depends on the progress shown. */
  lemma ProgressFrame(cfg: Config, s: State, progress: map<DataType, nat>)
    requires RunOk(cfg, s)
    ensures RunOk(cfg, s.(progress := progress))
  {
    var s' := s.(progress := progress);
    LastingQuiet(cfg, s, s');
    MemoryFrame(cfg, s, s');
    TasksFrame(cfg, s, s');
  }

  /** A step that confirms nothing can only count. */
  lemma EffectIsCount(cfg: Config, s: State, f: FileName, a: Attempt, action: Pipeline.Step, t: Task)
    requires RunOk(cfg, SetTask(s, f, t)) && action != Pipeline.Publisher(Pipeline.Confirm)
    ensures RunOk(cfg, SetTask(PipeEffect(cfg, s, f, a, action), f, t))
  {
    if action == Pipeline.Batcher(Pipeline.Receive) && f in cfg.kind {
      ProgressFrame(cfg, SetTask(s, f, t), Counted(s, cfg.kind[f]).progress);
    }
  }

  /** The running pipeline: only a confirmed batch changes what the broker has. */
  lemma ActivePipeKeeps(cfg: Config, s: State, f: FileName, action: Pipeline.Step)
    requires RunOk(cfg, s) && f in s.tasks && s.tasks[f].Active? && PipeNext(cfg, s, f, action).Some?
    ensures RunOk(cfg, PipeNext(cfg, s, f, action).value)
  {
    var a := s.tasks[f].attempt;
    var moved := a.(pipe := Pipeline.Apply(cfg.pipeline, a.pipe, action));
    MovedOk(cfg, s, f, action);
    if action == Pipeline.Publisher(Pipeline.Confirm) {
      FailingOk(cfg, s, f);
      EventThenSet(cfg, s, Confirmed(a.id, a.pipe.inflight), f, Active(moved));
    } else {
      SetTaskKeeps(cfg, s, f, Active(moved));
      EffectIsCount(cfg, s, f, a, action, Active(moved));
    }
  }

  /** Data of the file's own attempt is logged together with the task's move. */
  lemma EventThenSet(cfg: Config, s: State, e: Event, f: FileName, t: Task)
    requires RunOk(cfg, s) && f in s.tasks && s.tasks[f].Active? && e.Confirmed? && e.attempt == s.tasks[f].attempt.id
    requires TaskOk(cfg, s, f, FailingTask(s.tasks[f])) && FreshAmong(s, f, FailingTask(s.tasks[f]))
    requires TaskOk(cfg, Log(s, e), f, t) && FreshAmong(s, f, t)
    ensures RunOk(cfg, SetTask(Log(s, e), f, t))
  {
    SetTaskKeeps(cfg, s, f, FailingTask(s.tasks[f]));
    FreshIgnoresTask(s, e, f, FailingTask(s.tasks[f]), t);
    TaskOkIgnoresTasks(cfg, Log(s, e), s.tasks[f := FailingTask(s.tasks[f])], f, t);
    EventFromAside(cfg, s, SetTask(s, f, FailingTask(s.tasks[f])), e, f, t);
  }

  lemma FreshIgnoresTask(s: State, e: Event, f: FileName, aside: Task, t: Task)
    requires f in s.tasks && FreshAmong(s, f, t)
    ensures FreshAmong(Log(SetTask(s, f, aside), e), f, t)
  {
  }

  lemma EventFromAside(cfg: Config, s: State, aside: State, e: Event, f: FileName, t: Task)
    requires f in s.tasks && s.tasks[f].Active? && e.Confirmed? && e.attempt == s.tasks[f].attempt.id
    requires RunOk(cfg, aside) && AttemptsDistinct(s) && aside == SetTask(s, f, FailingTask(s.tasks[f]))
    requires TaskOk(cfg, Log(aside, e), f, t) && FreshAmong(Log(aside, e), f, t)
    ensures RunOk(cfg, SetTask(Log(s, e), f, t))
  {
    NobodyElses(s, f);
    EventKeeps(cfg, aside, e);
    SetTaskKeeps(cfg, Log(aside, e), f, t);
    SetTwice(s, e, f, FailingTask(s.tasks[f]), t);
  }

  lemma NobodyElses(s: State, f: FileName)
    requires AttemptsDistinct(s) && f in s.tasks && s.tasks[f].Active?
    ensures s.tasks[f].attempt.id < s.nextAttempt
    ensures var aside := SetTask(s, f, FailingTask(s.tasks[f]));
            forall g :: g in aside.tasks && aside.tasks[g].Active? ==>
                aside.tasks[g].attempt.id != s.tasks[f].attempt.id
  {
  }

  lemma SetTwice(s: State, e: Event, f: FileName, t: Task, t': Task)
    ensures SetTask(Log(SetTask(s, f, t), e), f, t') == SetTask(Log(s, e), f, t')
  {
    assert s.tasks[f := t][f := t'] == s.tasks[f := t'];
  }

  lemma ConfirmedOnly(cfg: Pipeline.Config, p: Pipeline.State, action: Pipeline.Step)
    requires Pipeline.Enabled(cfg, p, action)
    ensures Pipeline.Apply(cfg, p, action).confirmed ==
            (if action == Pipeline.Publisher(Pipeline.Confirm) then p.confirmed + [p.inflight] else p.confirmed)
  {
  }

  /** The attempt whose batch the broker has confirmed: the history has it too. */
  lemma ConfirmMoved(cfg: Config, s: State, f: FileName, a: Attempt, pipe: Pipeline.State)
    requires EntryOf(cfg, s, f, a) && AttemptOk(cfg, s, a)
    requires Pipeline.Inv(cfg.pipeline, pipe, cfg.parse(a.src))
             && pipe.confirmed == a.pipe.confirmed + [a.pipe.inflight]
    ensures TaskOk(cfg, Log(s, Confirmed(a.id, a.pipe.inflight)), f, Active(a.(pipe := pipe)))
  {
    PipelineProofs.FlatLast(a.pipe.confirmed, a.pipe.inflight);
    DataOfGrows(s.history, Confirmed(a.id, a.pipe.inflight), a.id);
    assert EntryOf(cfg, Log(s, Confirmed(a.id, a.pipe.inflight)), f, a.(pipe := pipe));
  }

  lemma QuietMoved(cfg: Config, s: State, f: FileName, a: Attempt, pipe: Pipeline.State)
    requires EntryOf(cfg, s, f, a) && AttemptOk(cfg, s, a)
    requires Pipeline.Inv(cfg.pipeline, pipe, cfg.parse(a.src)) && pipe.confirmed == a.pipe.confirmed
    ensures TaskOk(cfg, s, f, Active(a.(pipe := pipe)))
  {
  }

  /** The history after a step of an attempt. */
  function Noted(s: State, a: Attempt, action: Pipeline.Step): State {
    if action == Pipeline.Publisher(Pipeline.Confirm) then Log(s, Confirmed(a.id, a.pipe.inflight)) else s
  }

  lemma AttemptMoves(cfg: Config, s: State, f: FileName, a: Attempt, action: Pipeline.Step)
    requires EntryOf(cfg, s, f, a) && AttemptOk(cfg, s, a) && Pipeline.Enabled(cfg.pipeline, a.pipe, action)
    ensures TaskOk(cfg, Noted(s, a, action), f, Active(a.(pipe := Pipeline.Apply(cfg.pipeline, a.pipe, action))))
  {
    PipelineProofs.StepKeeps(cfg.pipeline, a.pipe, cfg.parse(a.src), action);
    ConfirmedOnly(cfg.pipeline, a.pipe, action);
    var pipe := Pipeline.Apply(cfg.pipeline, a.pipe, action);
    if action == Pipeline.Publisher(Pipeline.Confirm) {
      ConfirmMoved(cfg, s, f, a, pipe);
    } else {
      QuietMoved(cfg, s, f, a, pipe);
    }
  }

  lemma MovedOk(cfg: Config, s: State, f: FileName, action: Pipeline.Step)
    requires TasksOk(cfg, s) && f in s.tasks && s.tasks[f].Active?
    requires Pipeline.Enabled(cfg.pipeline, s.tasks[f].attempt.pipe, action)
    ensures var a := s.tasks[f].attempt;
            var moved := a.(pipe := Pipeline.Apply(cfg.pipeline, a.pipe, action));
            TaskOk(cfg, Noted(s, a, action), f, Active(moved)) && FreshAmong(s, f, Active(moved))
  {
    assert TaskOk(cfg, s, f, s.tasks[f]);
    AttemptMoves(cfg, s, f, s.tasks[f].attempt, action);
  }

  lemma TaskKeeps(cfg: Config, s: State, f: FileName, step: TaskStep)
    requires Inv(cfg, s) && TaskNext(cfg, s, f, step).Some?
    ensures Inv(cfg, TaskNext(cfg, s, f, step).value)
  {
    RunningInv(cfg, s);
    match step {
      case Skip => SetTaskKeeps(cfg, s, f, Skipped);
      case Admit => AdmittedOk(cfg, s, f); SetTaskKeeps(cfg, s, f, Admitted);
      case Start(saved) => if saved { StartSavedKeeps(cfg, s, f); } else { StartedKeeps(cfg, s, f, Failing(None)); }
      case Pipe(action) => PipeKeeps(cfg, s, f, action);
      case Progress(saved) => ProgressKeeps(cfg, s, f, saved);
      case Announce => AnnounceKeeps(cfg, s, f);
      case Complete(saved) => CompleteKeeps(cfg, s, f, saved);
      case Fail => FailingOk(cfg, s, f); SetTaskKeeps(cfg, s, f, FailingTask(s.tasks[f]));
    }
    RunningInv(cfg, TaskNext(cfg, s, f, step).value);
  }
}
