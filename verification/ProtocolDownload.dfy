/** The download steps keep the invariant. */
module ProtocolDownload {
  import opened Json
  import opened Marker
  import opened MarkerFacts
  import opened Protocol
  import opened ProtocolInv
  import opened ProtocolHistory
  import opened ProtocolSteps

  /** Two maps that differ in one key at most. */
  ghost predicate SameExcept<V>(m: map<FileName, V>, m': map<FileName, V>, key: FileName) {
    forall k :: k != key ==> (k in m' <==> k in m) && (k in m ==> m'[k] == m[k])
  }

  predicate InDownload(pc: Pc) {
    pc.Opening? || pc.Checking? || pc.Fetching? || pc.Fetched? || pc.Closing? || pc.Downloaded?
  }

  /** Enough to show after a download step: the history and the marker on disk are untouched. */
  lemma DownloadStepKeeps(cfg: Config, s: State, s': State)
    requires Lasting(cfg, s) && Quiet(s, s') && s'.tasks == map[] && InDownload(s'.pc) && IndexOk(cfg, s'.pc)
    requires s'.status == Running && s'.gen < s'.nextGen
    requires MarkerOk(s'.memory, cfg.files, s'.clock) && Backed(cfg, s'.history, s'.gen, s'.memory)
    requires PhaseOk(cfg, s') && DownloadOk(cfg, s') && ProgressOk(cfg, s')
    ensures Inv(cfg, s')
  {
    LastingQuiet(cfg, s, s');
    assert TasksOk(cfg, s');
  }

  lemma StartDownloadsKeeps(cfg: Config, s: State, published: Option<map<FileName, Hash>>)
    requires Inv(cfg, s) && s.pc == Opening
    ensures Inv(cfg,
                s.(memory := StartDownload(s.memory, |cfg.files|, s.clock), published := published, pc := Checking(0)))
  {
    var s' := s.(memory := StartDownload(s.memory, |cfg.files|, s.clock), published := published, pc := Checking(0));
    StartDownloadOk(s.memory, cfg.files, s.clock);
    BackedSame(cfg, s.history, s.gen, s.memory, s'.memory);
    assert ProgressOk(cfg, s') by {
      if s.durable.Some? && s.gen == s.durableGen {
        forall f ensures Kept(cfg, s', f) { assert Kept(cfg, s, f); }
      }
    }
    DownloadStepKeeps(cfg, s, s');
  }

  /** Files verified earlier stay trusted while another file of the version is worked on. */
  lemma OthersTrusted(cfg: Config, s: State, s': State, i: nat)
    requires Distinct(cfg.files) && i < |cfg.files| && DownloadOk(cfg, s) && Verified(cfg, s.pc) == i
    requires s'.published == s.published
    requires SameExcept(s.disk, s'.disk, cfg.files[i])
    requires SameExcept(s.metadata, s'.metadata, cfg.files[i])
    requires SameExcept(s.memory.download.byFile, s'.memory.download.byFile, cfg.files[i])
    requires SameExcept(s.memory.processing.byFile, s'.memory.processing.byFile, cfg.files[i])
    ensures forall j :: 0 <= j < i ==> Trusted(cfg, s', cfg.files[j])
  {
    forall j | 0 <= j < i ensures Trusted(cfg, s', cfg.files[j]) {
      assert Trusted(cfg, s, cfg.files[j]) && cfg.files[j] != cfg.files[i];
    }
  }

  /** Nothing completed is lost while no file changes its processing entry and only the file
      being fetched changes on disk. */
  lemma FetchingProgress(cfg: Config, s: State, s': State, i: nat)
    requires Distinct(cfg.files) && i < |cfg.files| && ProgressOk(cfg, s)
             && Verified(cfg, s.pc) == i == Verified(cfg, s'.pc)
    requires s'.durable == s.durable && s'.durableGen == s.durableGen && s'.gen == s.gen && s'.origin == s.origin
    requires SameExcept(s.disk, s'.disk, cfg.files[i])
    requires s'.memory.processing.byFile == s.memory.processing.byFile
    ensures ProgressOk(cfg, s')
  {
    if s.durable.Some? && s.gen == s.durableGen {
      forall f ensures Kept(cfg, s', f) {
        assert Kept(cfg, s, f);
      }
    }
  }

  /** Working on file i, short of trusting it. */
  lemma FetchKeeps(cfg: Config, s: State, s': State, i: nat)
    requires Distinct(cfg.files) && Lasting(cfg, s) && Backed(cfg, s.history, s.gen, s.memory) && PhaseOk(cfg, s)
    requires DownloadOk(cfg, s) && ProgressOk(cfg, s)
    requires i < |cfg.files| && Verified(cfg, s.pc) == i && (s.pc.Checking? || s.pc.Fetching?)
             && (s'.pc == Fetching(i) || s'.pc == Fetched(i))
    requires Quiet(s, s') && s'.tasks == map[] && s'.status == Running
    requires s'.gen == s.gen < s'.nextGen && s'.origin == s.origin && s'.published == s.published
    requires MarkerOk(s'.memory, cfg.files, s'.clock)
    requires s'.memory.processing == s.memory.processing && s'.memory.overall == s.memory.overall
    requires SameExcept(s.disk, s'.disk, cfg.files[i])
    requires SameExcept(s.metadata, s'.metadata, cfg.files[i])
    requires SameExcept(s.memory.download.byFile, s'.memory.download.byFile, cfg.files[i])
    requires s'.pc.Fetched? ==>
               cfg.files[i] in s'.disk && cfg.files[i] in s'.metadata
                 && s'.metadata[cfg.files[i]] == cfg.hash(s'.disk[cfg.files[i]])
    ensures Inv(cfg, s')
  {
    BackedSame(cfg, s.history, s.gen, s.memory, s'.memory);
    OthersTrusted(cfg, s, s', i);
    FetchingProgress(cfg, s, s', i);
    DownloadStepKeeps(cfg, s, s');
  }

  lemma FetchStartKeeps(cfg: Config, s: State)
    requires Distinct(cfg.files) && Inv(cfg, s) && s.pc.Checking? && s.pc.i < |cfg.files|
    ensures Inv(cfg, s.(memory := StartFileDownload(s.memory, cfg.files[s.pc.i], s.clock), pc := Fetching(s.pc.i)))
  {
    StartFileDownloadOk(s.memory, cfg.files, s.clock, cfg.files[s.pc.i]);
    FetchKeeps(cfg, s, s.(memory := StartFileDownload(s.memory, cfg.files[s.pc.i], s.clock), pc := Fetching(s.pc.i)),
               s.pc.i);
  }

  lemma FetchPartialKeeps(cfg: Config, s: State, left: Option<Bytes>)
    requires Distinct(cfg.files) && Inv(cfg, s) && s.pc.Fetching?
    ensures Inv(cfg,
                s.(disk := if left.Some? then s.disk[cfg.files[s.pc.i] := left.value]
                   else s.disk - {cfg.files[s.pc.i]}))
  {
    FetchKeeps(cfg, s,
               s.(disk := if left.Some? then s.disk[cfg.files[s.pc.i] := left.value] else s.disk - {cfg.files[s.pc.i]}),
                 s.pc.i);
  }

  lemma FetchOkKeeps(cfg: Config, s: State, bytes: Bytes)
    requires Distinct(cfg.files) && Inv(cfg, s) && s.pc.Fetching?
    ensures Inv(cfg, DownloadNext(cfg, s, FetchOk(bytes)).value)
  {
    FetchKeeps(cfg, s, DownloadNext(cfg, s, FetchOk(bytes)).value, s.pc.i);
  }

  /** Verified bytes: the file becomes trusted, and if its completed status came from other
      bytes it is re-queued. */
  lemma TrustKeeps(cfg: Config, s: State, s': State)
    requires Distinct(cfg.files) && Inv(cfg, s) && (s.pc.Checking? || s.pc.Fetched?) && s.pc.i < |cfg.files|
    requires var f := cfg.files[s.pc.i];
             f in s.disk && f in s.metadata && s.metadata[f] == cfg.hash(s.disk[f]) && MatchesPublished(s, f)
    requires s' == Trust(s, cfg.files[s.pc.i]).(pc := Checking(s.pc.i + 1))
    ensures Inv(cfg, s')
  {
    InDownloadLoop(cfg, s);
    TrustFrom(cfg, s, s', s.pc.i);
  }

  /** What the invariant says in the download loop. */
  ghost predicate LoopOk(cfg: Config, s: State) {
    && Lasting(cfg, s) && Backed(cfg, s.history, s.gen, s.memory) && PhaseOk(cfg, s)
    && DownloadOk(cfg, s) && ProgressOk(cfg, s) && MarkerOk(s.memory, cfg.files, s.clock)
    && s.tasks == map[] && s.status == Running && s.gen < s.nextGen
  }

  lemma InDownloadLoop(cfg: Config, s: State)
    requires Inv(cfg, s) && (s.pc.Checking? || s.pc.Fetched?)
    ensures LoopOk(cfg, s)
  {
  }

  lemma TrustFrom(cfg: Config, s: State, s': State, i: nat)
    requires Distinct(cfg.files) && LoopOk(cfg, s)
    requires i < |cfg.files| && Verified(cfg, s.pc) == i && (s.pc.Checking? || s.pc.Fetched?)
    requires var f := cfg.files[i];
             f in s.disk && f in s.metadata && s.metadata[f] == cfg.hash(s.disk[f]) && MatchesPublished(s, f)
    requires s' == Trust(s, cfg.files[i]).(pc := Checking(i + 1))
    ensures Inv(cfg, s')
  {
    TrustChanges(cfg, s, cfg.files[i]);
    TrustIsMemory(s, cfg.files[i]);
    TrustStepKeeps(cfg, s, s', i);
  }

  lemma TrustIsMemory(s: State, f: FileName)
    ensures Trust(s, f) == s.(memory := Trust(s, f).memory)
  {
  }

  ghost predicate Requeues(progress: map<FileName, FileProgress>, progress': map<FileName, FileProgress>, f: FileName,
                           stale: bool) {
    && SameExcept(progress, progress', f)
    && (if stale then f !in progress'
        else (f in progress' <==> f in progress) && (f in progress ==> progress'[f] == progress[f]))
  }

  /** All that trusting a file changes in the marker. */
  ghost predicate TrustEffect(s: State, m: Marker, f: FileName) {
    && f in s.metadata
    && m.overall == s.memory.overall && m.processing.startedAt == s.memory.processing.startedAt
    && f in m.download.byFile
    && m.download.byFile[f].checksum == Some(s.metadata[f])
    && SameExcept(s.memory.download.byFile, m.download.byFile, f)
    && Requeues(s.memory.processing.byFile, m.processing.byFile, f, IsStale(s.memory, f, s.metadata[f]))
  }

  lemma TrustChanges(cfg: Config, s: State, f: FileName)
    requires MarkerOk(s.memory, cfg.files, s.clock) && s.memory.overall != Completed && f in s.metadata
    ensures MarkerOk(Trust(s, f).memory, cfg.files, s.clock) && TrustEffect(s, Trust(s, f).memory, f)
  {
    VerifiedFacts(s.memory, cfg.files, s.clock, f, s.metadata[f]);
  }

  lemma TrustStepKeeps(cfg: Config, s: State, s': State, i: nat)
    requires Distinct(cfg.files) && Lasting(cfg, s) && Backed(cfg, s.history, s.gen, s.memory) && PhaseOk(cfg, s)
    requires DownloadOk(cfg, s) && ProgressOk(cfg, s)
    requires i < |cfg.files| && Verified(cfg, s.pc) == i && (s.pc.Checking? || s.pc.Fetched?)
    requires s' == s.(memory := s'.memory, pc := Checking(i + 1)) && s.tasks == map[] && s.status == Running
             && s.gen < s.nextGen
    requires var f := cfg.files[i];
             f in s.disk && f in s.metadata && s.metadata[f] == cfg.hash(s.disk[f]) && MatchesPublished(s, f)
    requires MarkerOk(s'.memory, cfg.files, s.clock) && TrustEffect(s, s'.memory, cfg.files[i])
    ensures Inv(cfg, s')
  {
    BackedSame(cfg, s.history, s.gen, s.memory, s'.memory);
    TrustDownload(cfg, s, s', i);
    TrustProgress(cfg, s, s', i);
    DownloadStepKeeps(cfg, s, s');
  }

  lemma TrustDownload(cfg: Config, s: State, s': State, i: nat)
    requires Distinct(cfg.files) && Backed(cfg, s.history, s.gen, s.memory) && DownloadOk(cfg, s)
    requires i < |cfg.files| && Verified(cfg, s.pc) == i
    requires s' == s.(memory := s'.memory, pc := Checking(i + 1))
    requires var f := cfg.files[i];
             f in s.disk && f in s.metadata && s.metadata[f] == cfg.hash(s.disk[f]) && MatchesPublished(s, f)
    requires TrustEffect(s, s'.memory, cfg.files[i])
    ensures DownloadOk(cfg, s')
  {
    OthersTrusted(cfg, s, s', i);
    TrustedNow(cfg, s, s', cfg.files[i]);
    forall j | 0 <= j < i + 1 && j < |cfg.files| ensures Trusted(cfg, s', cfg.files[j]) {
      assert j == i || j < i;
    }
  }

  lemma TrustedNow(cfg: Config, s: State, s': State, f: FileName)
    requires Backed(cfg, s.history, s.gen, s.memory)
    requires f in s.disk && f in s.metadata && s.metadata[f] == cfg.hash(s.disk[f]) && MatchesPublished(s, f)
    requires s'.disk == s.disk && s'.metadata == s.metadata && s'.published == s.published
    requires f in s'.memory.download.byFile && s'.memory.download.byFile[f].checksum == Some(s.metadata[f])
    requires Requeues(s.memory.processing.byFile, s'.memory.processing.byFile, f, IsStale(s.memory, f, s.metadata[f]))
    ensures Trusted(cfg, s', f)
  {
    if IsCompleted(s'.memory.processing.byFile, f) {
      assert Delivered(cfg, s.history, s.gen, f, s.memory.processing.byFile[f]);
    }
  }

  lemma TrustProgress(cfg: Config, s: State, s': State, i: nat)
    requires i < |cfg.files| && ProgressOk(cfg, s) && Verified(cfg, s.pc) == i && Verified(cfg, s'.pc) == i + 1
    requires s'.durable == s.durable && s'.durableGen == s.durableGen && s'.gen == s.gen && s'.origin == s.origin
    requires s'.disk == s.disk
    requires cfg.files[i] in s.disk && cfg.files[i] in s.metadata
             && s.metadata[cfg.files[i]] == cfg.hash(s.disk[cfg.files[i]])
    requires Requeues(s.memory.processing.byFile, s'.memory.processing.byFile, cfg.files[i],
                      IsStale(s.memory, cfg.files[i], s.metadata[cfg.files[i]]))
    ensures ProgressOk(cfg, s')
  {
    if s.durable.Some? && s.gen == s.durableGen {
      forall f ensures Kept(cfg, s', f) {
        assert Kept(cfg, s, f);
        assert 0 <= i < Verified(cfg, s'.pc);
      }
    }
  }

  lemma FinishDownloadsKeeps(cfg: Config, s: State)
    requires Inv(cfg, s) && s.pc == Checking(|cfg.files|)
    ensures Inv(cfg, s.(memory := CompleteDownload(s.memory, s.clock), pc := Closing))
  {
    var s' := s.(memory := CompleteDownload(s.memory, s.clock), pc := Closing);
    CompleteDownloadOk(s.memory, cfg.files, s.clock);
    BackedSame(cfg, s.history, s.gen, s.memory, s'.memory);
    SameFiles(cfg, s, s');
    DownloadStepKeeps(cfg, s, s');
  }

  /** Provenance and progress do not depend on anything but these fields. */
  lemma SameFiles(cfg: Config, s: State, s': State)
    requires DownloadOk(cfg, s) && ProgressOk(cfg, s) && Verified(cfg, s'.pc) == Verified(cfg, s.pc) && !s'.pc.Fetched?
    requires s'.disk == s.disk && s'.metadata == s.metadata && s'.published == s.published
    requires s'.durable == s.durable && s'.durableGen == s.durableGen && s'.gen == s.gen && s'.origin == s.origin
    requires s'.memory.download.byFile == s.memory.download.byFile
             && s'.memory.processing.byFile == s.memory.processing.byFile
    ensures DownloadOk(cfg, s') && ProgressOk(cfg, s')
  {
    forall j | 0 <= j < Verified(cfg, s.pc) && j < |cfg.files| ensures Trusted(cfg, s', cfg.files[j]) {
      assert Trusted(cfg, s, cfg.files[j]);
    }
    if s.durable.Some? && s.gen == s.durableGen {
      forall f ensures Kept(cfg, s', f) { assert Kept(cfg, s, f); }
    }
  }

  lemma DownloadsOkKeeps(cfg: Config, s: State)
    requires Inv(cfg, s) && s.pc == Closing
    ensures Inv(cfg, s.(metaFile := s.metadata, pc := Downloaded))
  {
    var s' := s.(metaFile := s.metadata, pc := Downloaded);
    SameFiles(cfg, s, s');
    DownloadStepKeeps(cfg, s, s');
  }

  lemma SaveMetadataKeeps(cfg: Config, s: State)
    requires Inv(cfg, s) && s.pc.Fetched?
    ensures Inv(cfg, s.(metaFile := s.metadata))
  {
    var s' := s.(metaFile := s.metadata);
    forall j | 0 <= j < Verified(cfg, s.pc) && j < |cfg.files| ensures Trusted(cfg, s', cfg.files[j]) {
      assert Trusted(cfg, s, cfg.files[j]);
    }
    assert ProgressOk(cfg, s') by {
      if s.durable.Some? && s.gen == s.durableGen {
        forall f ensures Kept(cfg, s', f) { assert Kept(cfg, s, f); }
      }
    }
    DownloadStepKeeps(cfg, s, s');
  }

  lemma RejectFileKeeps(cfg: Config, s: State, removed: bool)
    requires Lasting(cfg, s) && DownloadNext(cfg, s, RejectFile(removed)).Some?
    ensures Inv(cfg, DownloadNext(cfg, s, RejectFile(removed)).value)
  {
    var f := cfg.files[s.pc.i];
    var s' := s.(metadata := s.metadata - {f}, disk := if removed then s.disk - {f} else s.disk);
    LastingQuiet(cfg, s, s');
    EndRunKeeps(cfg, s', Err);
  }

  /** The best-effort save that follows a step of the download loop. */
  lemma FetchStartStepKeeps(cfg: Config, s: State, saved: bool)
    requires Distinct(cfg.files) && Inv(cfg, s) && DownloadNext(cfg, s, FetchStart(saved)).Some?
    ensures Inv(cfg, DownloadNext(cfg, s, FetchStart(saved)).value)
  {
    FetchStartKeeps(cfg, s);
    TrySaveKeeps(cfg, s.(memory := StartFileDownload(s.memory, cfg.files[s.pc.i], s.clock), pc := Fetching(s.pc.i)),
                 saved);
  }

  lemma TrustSavedKeeps(cfg: Config, s: State, saved: bool)
    requires Distinct(cfg.files) && Inv(cfg, s) && (s.pc.Checking? || s.pc.Fetched?) && s.pc.i < |cfg.files|
    requires var f := cfg.files[s.pc.i];
             f in s.disk && f in s.metadata && s.metadata[f] == cfg.hash(s.disk[f]) && MatchesPublished(s, f)
    ensures Inv(cfg, TrySave(Trust(s, cfg.files[s.pc.i]).(pc := Checking(s.pc.i + 1)), saved))
  {
    var s' := Trust(s, cfg.files[s.pc.i]).(pc := Checking(s.pc.i + 1));
    TrustKeeps(cfg, s, s');
    TrySaveKeeps(cfg, s', saved);
  }

  lemma AcceptFileKeeps(cfg: Config, s: State, saved: bool)
    requires Distinct(cfg.files) && Inv(cfg, s) && DownloadNext(cfg, s, AcceptFile(saved)).Some?
    ensures Inv(cfg, DownloadNext(cfg, s, AcceptFile(saved)).value)
  {
    TrustSavedKeeps(cfg, s, saved);
  }

  lemma KeepFileKeeps(cfg: Config, s: State, saved: bool)
    requires Distinct(cfg.files) && Inv(cfg, s) && DownloadNext(cfg, s, KeepFile(saved)).Some?
    ensures Inv(cfg, DownloadNext(cfg, s, KeepFile(saved)).value)
  {
    TrustSavedKeeps(cfg, s, saved);
  }

  lemma EndsKeep(cfg: Config, s: State, step: DownloadStep)
    requires Inv(cfg, s) && DownloadNext(cfg, s, step).Some?
    requires step.StartDownloads? || step.FinishDownloads?
    ensures Inv(cfg, DownloadNext(cfg, s, step).value)
  {
    if step.StartDownloads? {
      StartDownloadsKeeps(cfg, s, step.published);
      TrySaveKeeps(cfg,
                   s.(memory := StartDownload(s.memory, |cfg.files|, s.clock), published := step.published,
                      pc := Checking(0)), step.saved);
    } else {
      FinishDownloadsKeeps(cfg, s);
      TrySaveKeeps(cfg, s.(memory := CompleteDownload(s.memory, s.clock), pc := Closing), step.saved);
    }
  }

  lemma DownloadKeeps(cfg: Config, s: State, step: DownloadStep)
    requires Distinct(cfg.files) && Inv(cfg, s) && DownloadNext(cfg, s, step).Some?
    ensures Inv(cfg, DownloadNext(cfg, s, step).value)
  {
    match step
    case FetchPartial(left) => FetchPartialKeeps(cfg, s, left);
    case FetchOk(bytes) => FetchOkKeeps(cfg, s, bytes);
    case RejectFile(removed) => RejectFileKeeps(cfg, s, removed);
    case SaveMetadata => SaveMetadataKeeps(cfg, s);
    case DownloadsOk => DownloadsOkKeeps(cfg, s);
    case StartDownloads(_, _) => EndsKeep(cfg, s, step);
    case FinishDownloads(_) => EndsKeep(cfg, s, step);
    case FetchStart(saved) => FetchStartStepKeeps(cfg, s, saved);
    case KeepFile(saved) => KeepFileKeeps(cfg, s, saved);
    case AcceptFile(saved) => AcceptFileKeeps(cfg, s, saved);
  }
}
