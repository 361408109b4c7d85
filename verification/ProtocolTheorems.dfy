/** What holds over every run of the producer: any number of sessions, with failures, failed
    saves, shutdowns, re-downloads and crashes anywhere. */
module ProtocolTheorems {
  import opened Json
  import opened Marker
  import opened MarkerFacts
  import opened Protocol
  import opened ProtocolInv
  import opened ProtocolSteps
  import opened ProtocolDownload
  import opened ProtocolTasks
  import opened ProtocolFinish
  import Pipeline

  lemma InitKeeps(cfg: Config, s: State)
    requires Init(s)
    ensures Inv(cfg, s)
  {
    assert Lasting(cfg, s);
    IdleKeeps(cfg, s, s);
  }

  lemma StepKeeps(cfg: Config, s: State, step: Step)
    requires ValidConfig(cfg) && Inv(cfg, s) && Next(cfg, s, step).Some?
    ensures Inv(cfg, Next(cfg, s, step).value)
  {
    match step
    case Outside(event) => OutsideKeeps(cfg, s, event);
    case Loop(loop) => LoopKeeps(cfg, s, loop);
    case Download(download) => DownloadKeeps(cfg, s, download);
    case File(file, task) => TaskKeeps(cfg, s, file, task);
    case Finish(finish) => FinishKeeps(cfg, s, finish);
  }

  lemma {:induction false} RunKeeps(cfg: Config, s: State, steps: seq<Step>)
    requires ValidConfig(cfg) && Inv(cfg, s) && Run(cfg, s, steps).Some?
    ensures Inv(cfg, Run(cfg, s, steps).value)
    decreases |steps|
  {
    if steps != [] {
      StepKeeps(cfg, s, steps[0]);
      RunKeeps(cfg, Next(cfg, s, steps[0]).value, steps[1..]);
    }
  }

  /** A state that some run of the producer, from any initial disk, can reach. */
  ghost predicate Reachable(cfg: Config, s: State) {
    exists s0: State, steps: seq<Step> :: Init(s0) && Run(cfg, s0, steps) == Some(s)
  }

  lemma ReachableInv(cfg: Config, s: State)
    requires ValidConfig(cfg) && Reachable(cfg, s)
    ensures Inv(cfg, s)
  {
    var s0: State, steps: seq<Step> :| Init(s0) && Run(cfg, s0, steps) == Some(s);
    InitKeeps(cfg, s0);
    RunKeeps(cfg, s0, steps);
  }

  // ---- Split commit ----

  /** At position j the exchange confirmed extraction_complete for the generation, and before it
      a snapshot had reached the disk in which every file was completed and delivered. */
  ghost predicate BroadcastAfterCompletion(cfg: Config, h: seq<Event>, j: int, exchange: DataType, gen: nat) {
    && 0 <= j < |h|
    && h[j].ExtractionComplete? && h[j].exchange == exchange && h[j].gen == gen
    && exists k :: k < j && Certificate(cfg, h, k, gen, h[j].startedAt, h[j].counts)
  }

  /** A marker on disk that makes every later cycle skip the version is there only after all
      four exchanges confirmed the broadcast of that marker, each after all files were durably
      completed. And only a finalized marker is skipped. */
  lemma SplitCommitIsSafe(cfg: Config, s: State)
    requires ValidConfig(cfg) && Reachable(cfg, s) && s.durable.Some?
    ensures Decide(s.durable.value) == Decision.Skip <==> s.durable.value.overall == Completed
    ensures Decide(s.durable.value) == Decision.Skip ==>
              forall x :: x in EXCHANGES ==> exists j :: BroadcastAfterCompletion(cfg, s.history, j, x, s.durableGen)
  {
    ReachableInv(cfg, s);
    SkipIffCompleted(s.durable.value, cfg.files, s.clock);
    if s.durable.value.overall == Completed {
      forall x | x in EXCHANGES ensures exists j :: BroadcastAfterCompletion(cfg, s.history, j, x, s.durableGen) {
        assert HasBroadcast(s.history, x, s.durableGen);
        var j :| 0 <= j < |s.history| && s.history[j].ExtractionComplete? && s.history[j].exchange == x
          && s.history[j].gen == s.durableGen;
        assert SoundAt(cfg, s.history, j);
        assert BroadcastAfterCompletion(cfg, s.history, j, x, s.durableGen);
      }
    }
  }

  // ---- Broadcasts ----

  /** Position i holds a confirmed file_complete of the file in this generation, for an attempt
      that started no earlier than `startedAt` and whose records are all confirmed before it. */
  ghost predicate CompletedBy(cfg: Config, h: seq<Event>, i: int, gen: nat, file: FileName, startedAt: Time,
                              count: nat) {
    && 0 <= i < |h|
    && h[i].FileComplete? && h[i].gen == gen && h[i].file == file
    && startedAt <= h[i].start
    && count == h[i].count == |cfg.parse(h[i].src)|
    && DataOf(h[..i], h[i].attempt) == Pipeline.Expected(cfg.pipeline, cfg.parse(h[i].src))
  }

  lemma CertificateCovers(cfg: Config, h: seq<Event>, k: int, gen: nat, startedAt: Time, counts: map<DataType, nat>,
                          f: FileName)
    requires Certificate(cfg, h, k, gen, startedAt, counts) && f in cfg.files
    ensures f in cfg.kind && cfg.kind[f] in counts
    ensures exists i :: i < k && CompletedBy(cfg, h, i, gen, f, startedAt, counts[cfg.kind[f]])
  {
    var m := h[k].marker;
    assert IsCompleted(m.processing.byFile, f);
    assert Delivered(cfg, h[..k], gen, f, m.processing.byFile[f]);
    var i :| DeliveredAt(cfg, h[..k], i, gen, f, m.processing.byFile[f]);
    assert h[..k][..i] == h[..i];
    assert CompletedBy(cfg, h, i, gen, f, startedAt, counts[cfg.kind[f]]);
  }

  lemma SoundHistory(cfg: Config, s: State, j: nat)
    requires ValidConfig(cfg) && Reachable(cfg, s) && j < |s.history|
    ensures SoundAt(cfg, s.history, j)
  {
    ReachableInv(cfg, s);
  }

  /** Purge safety and counts: each extraction_complete carries a start no later than the start
      of the attempt that completed each file, and for each type the parser's record count of
      that attempt, whatever session it ran in. */
  lemma BroadcastIsSound(cfg: Config, s: State, j: nat, f: FileName)
    requires ValidConfig(cfg) && Reachable(cfg, s)
    requires j < |s.history| && s.history[j].ExtractionComplete? && f in cfg.files
    ensures cfg.kind[f] in s.history[j].counts
    ensures var e := s.history[j];
            exists i :: i < j && CompletedBy(cfg, s.history, i, e.gen, f, e.startedAt, e.counts[cfg.kind[f]])
  {
    SoundHistory(cfg, s, j);
    var e := s.history[j];
    var k :| k < j && Certificate(cfg, s.history, k, e.gen, e.startedAt, e.counts);
    CertificateCovers(cfg, s.history, k, e.gen, e.startedAt, e.counts, f);
  }

  /** All broadcasts of one marker generation carry the same start, over any number of resumes,
      retries and invalidations. */
  lemma BroadcastsAgree(cfg: Config, s: State, i: nat, j: nat)
    requires ValidConfig(cfg) && Reachable(cfg, s)
    requires i < |s.history| && j < |s.history| && s.history[i].ExtractionComplete? && s.history[j].ExtractionComplete?
    requires s.history[i].gen == s.history[j].gen
    ensures s.history[i].startedAt == s.history[j].startedAt
  {
    ReachableInv(cfg, s);
  }

  // ---- Files ----

  /** A file is durably completed only after its file_complete was confirmed, and that only after
      exactly the normalized records of the bytes it was computed from were confirmed, in order. */
  lemma CompletedMeansDelivered(cfg: Config, s: State, f: FileName)
    requires ValidConfig(cfg) && Reachable(cfg, s) && s.durable.Some?
             && IsCompleted(s.durable.value.processing.byFile, f)
    ensures Delivered(cfg, s.history, s.durableGen, f, s.durable.value.processing.byFile[f])
  {
    ReachableInv(cfg, s);
  }

  /** Provenance: once the download phase has returned Ok, metadata, marker and bytes on disk
      agree on every file, and with the published checksum where one is listed; and the checksum a
      completed status was computed from is that of the bytes on disk. */
  lemma DownloadEstablishesProvenance(cfg: Config, s: State, f: FileName)
    requires ValidConfig(cfg) && Reachable(cfg, s) && PastDownload(s.pc) && f in cfg.files
    ensures Trusted(cfg, s, f)
    ensures s.published.Some? && f in s.published.value ==> s.published.value[f] == cfg.hash(s.disk[f])
  {
    ReachableInv(cfg, s);
    var i :| 0 <= i < |cfg.files| && cfg.files[i] == f;
    assert Trusted(cfg, s, cfg.files[i]);
  }

  /** No file that has been delivered had other bytes with the same hash. */
  ghost predicate NoCollision(cfg: Config, h: seq<Event>, bytes: Bytes) {
    forall i :: 0 <= i < |h| && h[i].FileComplete? && cfg.hash(h[i].src) == cfg.hash(bytes) ==> h[i].src == bytes
  }

  /** Provenance of the bytes themselves: if the hash tells delivered bytes from those on disk, the
      attempt that completed a file has read exactly what is on disk now. */
  lemma CompletedFromTheseBytes(cfg: Config, s: State, f: FileName)
    requires ValidConfig(cfg) && Reachable(cfg, s) && PastDownload(s.pc) && f in cfg.files
    requires IsCompleted(s.memory.processing.byFile, f) && f in s.disk && NoCollision(cfg, s.history, s.disk[f])
    ensures exists i ::
              DeliveredAt(cfg, s.history, i, s.gen, f, s.memory.processing.byFile[f]) && s.history[i].src == s.disk[f]
    ensures s.memory.processing.byFile[f].records == |cfg.parse(s.disk[f])|
  {
    ReachableInv(cfg, s);
    DownloadEstablishesProvenance(cfg, s, f);
    assert Delivered(cfg, s.history, s.gen, f, s.memory.processing.byFile[f]);
    var i :| DeliveredAt(cfg, s.history, i, s.gen, f, s.memory.processing.byFile[f]);
    assert s.history[i].src == s.disk[f];
  }

  /** Every snapshot that ever reached the disk is consistent: in particular it counts exactly
      its completed files, and names no phase completed before its files are. */
  lemma SnapshotsAreConsistent(cfg: Config, s: State, j: nat)
    requires ValidConfig(cfg) && Reachable(cfg, s) && j < |s.history| && s.history[j].Saved?
    ensures var m := s.history[j].marker;
            && m.processing.filesProcessed == CompletedCount(m.processing.byFile)
            && (m.processing.status == Completed ==>
                AllCompleted(m, cfg.files) && m.processing.records == Sum(m.processing.byFile, Records))
            && (m.overall == Completed ==> m.processing.status == Completed && m.download.status == Completed)
  {
    ReachableInv(cfg, s);
    var m := s.history[j].marker;
    assert s.history[j] in s.history;
    if m.processing.status == Completed {
      TotalsExact(m, cfg.files, s.clock);
    }
  }

  // ---- Status ----

  /** Whenever the periodic loop waits, its status is Waiting or Failed: no return path of a run
      leaves it Running, so a trigger is never refused for a run that is not there. */
  lemma ParkedIsNeverRunning(cfg: Config, s: State)
    requires ValidConfig(cfg) && Reachable(cfg, s) && s.pc == Parked
    ensures s.status == Waiting || s.status == Broken
  {
    ReachableInv(cfg, s);
  }
}
