/** The invariant of the run protocol. */
module ProtocolInv {
  import opened Json
  import opened Marker
  import opened MarkerFacts
  import opened Protocol
  import Pipeline

  // ---- Reading the history ----

  /** The data messages confirmed for one attempt, in order. */
  ghost function DataOf(h: seq<Event>, attempt: nat): seq<DataMessage> {
    if h == [] then []
    else
      var last := h[|h| - 1];
      DataOf(h[..|h| - 1], attempt) + (if last.Confirmed? && last.attempt == attempt then last.batch else [])
  }

  /** At position i the broker confirmed file_complete for an attempt on `file`, and before it
      every data message of that attempt: exactly the normalized records of the bytes it read. */
  ghost predicate DeliveredAt(cfg: Config, h: seq<Event>, i: int, gen: nat, file: FileName, p: FileProgress) {
    && 0 <= i < |h|
    && h[i].FileComplete? && h[i].gen == gen && h[i].file == file
    && p.startedAt == Some(h[i].start)
    && p.source == Some(cfg.hash(h[i].src))
    && p.records == h[i].count == |cfg.parse(h[i].src)|
    && DataOf(h[..i], h[i].attempt) == Pipeline.Expected(cfg.pipeline, cfg.parse(h[i].src))
  }

  ghost predicate Delivered(cfg: Config, h: seq<Event>, gen: nat, file: FileName, p: FileProgress) {
    exists i :: DeliveredAt(cfg, h, i, gen, file, p)
  }

  ghost predicate MarkerDelivered(cfg: Config, h: seq<Event>, gen: nat, m: Marker) {
    forall f :: IsCompleted(m.processing.byFile, f) ==> Delivered(cfg, h, gen, f, m.processing.byFile[f])
  }

  /** At position k a snapshot reached the disk in which every file was completed and delivered,
      none of them started before `startedAt`, with these record counts. */
  ghost predicate Certificate(cfg: Config, h: seq<Event>, k: int, gen: nat, startedAt: Time,
                              counts: map<DataType, nat>) {
    && 0 <= k < |h|
    && h[k].Saved? && h[k].gen == gen
    && AllCompleted(h[k].marker, cfg.files)
    && MarkerDelivered(cfg, h[..k], gen, h[k].marker)
    && EntriesOk(h[k].marker, cfg.files)
    && Synced(h[k].marker)
    && h[k].marker.processing.startedAt == Some(startedAt)
    && CountsOf(cfg, h[k].marker, counts)
  }

  /** The counts give, for each file's type, the records of the file. */
  ghost predicate CountsOf(cfg: Config, m: Marker, counts: map<DataType, nat>) {
    forall f :: f in cfg.files ==>
      && f in cfg.kind && f in m.processing.byFile
      && cfg.kind[f] in counts && counts[cfg.kind[f]] == m.processing.byFile[f].records
  }

  /** The broadcast at position j was preceded by its certificate. */
  ghost predicate SoundAt(cfg: Config, h: seq<Event>, j: int) {
    0 <= j < |h| && h[j].ExtractionComplete? ==>
      exists k :: k < j && Certificate(cfg, h, k, h[j].gen, h[j].startedAt, h[j].counts)
  }

  ghost predicate HasBroadcast(h: seq<Event>, exchange: DataType, gen: nat) {
    exists j :: 0 <= j < |h| && h[j].ExtractionComplete? && h[j].exchange == exchange && h[j].gen == gen
  }

  ghost predicate SameStart(h: seq<Event>) {
    forall i, j ::
      0 <= i < |h| && 0 <= j < |h| && h[i].ExtractionComplete? && h[j].ExtractionComplete? && h[i].gen == h[j].gen ==>
        h[i].startedAt == h[j].startedAt
  }

  ghost predicate Numbered(e: Event, nextGen: nat, nextAttempt: nat) {
    && (e.Confirmed? || e.gen < nextGen)
    && (e.Confirmed? || e.FileComplete? ==> e.attempt < nextAttempt)
  }

  ghost predicate Chronicle(cfg: Config, s: State) {
    && (forall j :: SoundAt(cfg, s.history, j))
    && SameStart(s.history)
    && (forall e :: e in s.history ==> Numbered(e, s.nextGen, s.nextAttempt))
    && (forall e :: e in s.history && e.Saved? ==> MarkerOk(e.marker, cfg.files, s.clock))
  }

  /** What a marker claims is in the history: its completed files were delivered, a finalized
      extraction was broadcast to all exchanges, and every broadcast of its generation carried
      its processing start. */
  ghost predicate Backed(cfg: Config, h: seq<Event>, gen: nat, m: Marker) {
    && MarkerDelivered(cfg, h, gen, m)
    && (m.overall == Completed ==> forall x :: x in EXCHANGES ==> HasBroadcast(h, x, gen))
    && (forall j :: 0 <= j < |h| && h[j].ExtractionComplete? && h[j].gen == gen ==>
        m.processing.startedAt == Some(h[j].startedAt))
  }

  // ---- Phases of a run ----

  /** The run holds a marker in memory. */
  predicate Holding(pc: Pc) {
    !pc.Down? && !pc.Parked? && !pc.Entering? && !pc.Listing?
  }

  predicate PastDownload(pc: Pc) {
    Holding(pc) && !pc.Opening? && !pc.Checking? && !pc.Fetching? && !pc.Fetched? && !pc.Closing?
  }

  predicate Broadcastable(pc: Pc) {
    pc.Connecting? || pc.Broadcasting? || pc.Committing?
  }

  /** How many files of the version the download loop has verified. */
  function Verified(cfg: Config, pc: Pc): nat {
    match pc
    case Checking(i) => i
    case Fetching(i) => i
    case Fetched(i) => i
    case Opening => 0
    case _ => if Holding(pc) then |cfg.files| else 0
  }

  ghost predicate IndexOk(cfg: Config, pc: Pc) {
    && (pc.Checking? ==> pc.i <= |cfg.files|)
    && (pc.Fetching? ==> pc.i < |cfg.files|)
    && (pc.Fetched? ==> pc.i < |cfg.files|)
    && (pc.Broadcasting? ==> pc.k <= |EXCHANGES|)
  }

  ghost predicate PhaseOk(cfg: Config, s: State) {
    var p := s.memory.processing.status;
    && (s.memory.overall == Completed <==> s.pc.Committing?)
    && (PastDownload(s.pc) || s.pc.Closing? ==> s.memory.download.status == Completed)
    && (s.pc.Starting? || TasksRun(s.pc) ==> p == InProgress)
    && (s.pc.Ready? ==> p != Pending)
    && ((s.pc.Finalizing? && s.pc.success) || Broadcastable(s.pc) ==> p == Completed)
  }

  // ---- Provenance ----

  /** Disk, metadata, marker and published checksum agree on this file, and the checksum that a
      completed status was computed from is theirs too. */
  ghost predicate Trusted(cfg: Config, s: State, f: FileName) {
    && f in s.disk && f in s.metadata && f in s.memory.download.byFile
    && s.metadata[f] == cfg.hash(s.disk[f])
    && s.memory.download.byFile[f].checksum == Some(cfg.hash(s.disk[f]))
    && MatchesPublished(s, f)
    && (IsCompleted(s.memory.processing.byFile, f) ==>
        s.memory.processing.byFile[f].source == Some(cfg.hash(s.disk[f])))
  }

  ghost predicate DownloadOk(cfg: Config, s: State) {
    && (forall j :: 0 <= j < Verified(cfg, s.pc) && j < |cfg.files| ==> Trusted(cfg, s, cfg.files[j]))
    && (s.pc.Fetched? && s.pc.i < |cfg.files| ==>
          var f := cfg.files[s.pc.i]; f in s.disk && f in s.metadata && s.metadata[f] == cfg.hash(s.disk[f]))
  }

  /** A file completed on disk is completed in memory too, or was re-queued because the verified
      bytes are not the ones it was computed from. */
  ghost predicate Kept(cfg: Config, s: State, f: FileName)
    requires s.durable.Some?
  {
    IsCompleted(s.durable.value.processing.byFile, f) ==>
      || (IsCompleted(s.memory.processing.byFile, f)
          && s.memory.processing.byFile[f] == s.durable.value.processing.byFile[f])
      || ((exists j :: 0 <= j < Verified(cfg, s.pc) && j < |cfg.files| && cfg.files[j] == f)
          && f in s.disk && s.durable.value.processing.byFile[f].source != Some(cfg.hash(s.disk[f])))
  }

  ghost predicate ProgressOk(cfg: Config, s: State) {
    s.durable.Some? ==>
      if s.gen == s.durableGen then forall f :: Kept(cfg, s, f)
      else
        || s.origin == Forced
        || s.origin == Unreadable
        || (s.origin == Restarted && forall f :: !IsCompleted(s.durable.value.processing.byFile, f))
  }

  // ---- Tasks ----

  /** The marker's entry for a running attempt, which reads the bytes on disk. */
  ghost predicate EntryOf(cfg: Config, s: State, f: FileName, a: Attempt) {
    && f in s.memory.processing.byFile && f in s.disk
    && s.disk[f] == a.src
    && s.memory.processing.byFile[f].status == InProgress
    && s.memory.processing.byFile[f].startedAt == Some(a.start)
    && s.memory.processing.byFile[f].source == Some(cfg.hash(a.src))
  }

  ghost predicate AttemptOk(cfg: Config, s: State, a: Attempt) {
    && Pipeline.Inv(cfg.pipeline, a.pipe, cfg.parse(a.src))
    && DataOf(s.history, a.id) == Pipeline.Flat(a.pipe.confirmed)
  }

  ghost predicate TaskOk(cfg: Config, s: State, f: FileName, t: Task) {
    match t
    case Queued => !IsCompleted(s.memory.processing.byFile, f)
    case Admitted => !IsCompleted(s.memory.processing.byFile, f)
    case Skipped => s.shutdown
    case Active(a) => EntryOf(cfg, s, f, a) && AttemptOk(cfg, s, a)
    case Announced(a) =>
      EntryOf(cfg, s, f, a)
        && Delivered(cfg, s.history, s.gen, f, FinishedProgress(s.memory.processing.byFile[f], a.pipe.parsed, 0))
    case Done => IsCompleted(s.memory.processing.byFile, f)
    case Failing(draining) => draining.Some? ==> EntryOf(cfg, s, f, draining.value)
  }

  ghost predicate AttemptsDistinct(s: State) {
    && (forall f :: f in s.tasks && HasAttempt(s.tasks[f]) ==> AttemptOf(s.tasks[f]).id < s.nextAttempt)
    && (forall f, g :: f in s.tasks && g in s.tasks && f != g && HasAttempt(s.tasks[f]) && HasAttempt(s.tasks[g]) ==>
          AttemptOf(s.tasks[f]).id != AttemptOf(s.tasks[g]).id)
  }

  ghost predicate TasksOk(cfg: Config, s: State) {
    && (!TasksRun(s.pc) ==> s.tasks == map[])
    && (s.pc.Processing? ==> forall f :: f in cfg.files && f !in s.tasks ==> IsCompleted(s.memory.processing.byFile, f))
    && (forall f :: f in s.tasks ==> f in cfg.files && TaskOk(cfg, s, f, s.tasks[f]))
    && AttemptsDistinct(s)
  }

  // ---- Broadcast and status ----

  ghost predicate BroadcastOk(cfg: Config, s: State) {
    Broadcastable(s.pc) ==>
      && s.memory.processing.startedAt.Some?
      && s.durable.Some? && s.durableGen == s.gen && s.durable.value.processing == s.memory.processing
      && (exists k :: Certificate(cfg, s.history, k, s.gen, s.memory.processing.startedAt.value, s.counts))
      && (s.pc.Broadcasting? && !s.pc.failed ==>
            forall x :: 0 <= x < s.pc.k && x < |EXCHANGES| ==> HasBroadcast(s.history, EXCHANGES[x], s.gen))
  }

  predicate StatusOk(s: State) {
    && (s.pc.Parked? ==> !s.initial && (s.status == Waiting || s.status == Broken))
    && (s.pc.Entering? && !s.initial ==> s.status == Waiting || s.status == Broken)
    && (s.pc.Entering? && s.initial ==> s.status == Idle)
    && (s.pc.Listing? || Holding(s.pc) ==> s.status == Running)
  }

  ghost predicate DurableOk(cfg: Config, s: State) {
    s.durable.Some? ==>
      && MarkerOk(s.durable.value, cfg.files, s.clock)
      && s.durableGen < s.nextGen
      && Backed(cfg, s.history, s.durableGen, s.durable.value)
  }

  ghost predicate MemoryOk(cfg: Config, s: State) {
    && MarkerOk(s.memory, cfg.files, s.clock)
    && s.gen < s.nextGen
    && Backed(cfg, s.history, s.gen, s.memory)
    && PhaseOk(cfg, s)
    && DownloadOk(cfg, s)
    && ProgressOk(cfg, s)
    && BroadcastOk(cfg, s)
  }

  ghost predicate Inv(cfg: Config, s: State) {
    && Chronicle(cfg, s)
    && DurableOk(cfg, s)
    && IndexOk(cfg, s.pc)
    && StatusOk(s)
    && TasksOk(cfg, s)
    && (Holding(s.pc) ==> MemoryOk(cfg, s))
  }
}
