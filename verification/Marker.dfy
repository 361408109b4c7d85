/** The state marker as a value: what is serialized to disk, and what each transition makes of
    it. `StateMarker` (the class) is proved against these functions, and the run protocol is
    built on them. */
module Marker {
  import opened Json

  type Time = nat
  type Hash = nat
  type FileName = string

  datatype PhaseStatus = Pending | InProgress | Completed | Failed

  datatype FileDownload = FileDownload(
    status: PhaseStatus,
    startedAt: Option<Time>,
    completedAt: Option<Time>,
    checksum: Option<Hash>)

  datatype DownloadPhase = DownloadPhase(
    status: PhaseStatus,
    startedAt: Option<Time>,
    completedAt: Option<Time>,
    filesDownloaded: nat,
    filesTotal: nat,
    byFile: map<FileName, FileDownload>)

  datatype FileProgress = FileProgress(
    status: PhaseStatus,
    records: nat,
    messages: nat,
    batches: nat,
    startedAt: Option<Time>,
    completedAt: Option<Time>,
    source: Option<Hash>) // checksum of the bytes this status was computed from

  datatype ProcessingPhase = ProcessingPhase(
    status: PhaseStatus,
    startedAt: Option<Time>,
    completedAt: Option<Time>,
    filesProcessed: nat,
    filesTotal: nat,
    records: nat,
    currentFile: Option<FileName>,
    byFile: map<FileName, FileProgress>)

  datatype PublishingPhase = PublishingPhase(status: PhaseStatus, messages: nat, batches: nat)

  datatype Marker = Marker(
    download: DownloadPhase,
    processing: ProcessingPhase,
    publishing: PublishingPhase,
    overall: PhaseStatus)

  datatype Decision = Reprocess | Continue | Skip

  function New(): Marker {
    Marker(DownloadPhase(Pending, None, None, 0, 0, map[]),
           ProcessingPhase(Pending, None, None, 0, 0, 0, None, map[]),
           PublishingPhase(Pending, 0, 0),
           Pending)
  }

  // ---- Reading ----

  predicate IsCompleted(progress: map<FileName, FileProgress>, file: FileName) {
    file in progress && progress[file].status == Completed
  }

  ghost function CompletedFiles(progress: map<FileName, FileProgress>): set<FileName> {
    set file | file in progress && IsCompleted(progress, file)
  }

  ghost function CompletedCount(progress: map<FileName, FileProgress>): nat {
    |CompletedFiles(progress)|
  }

  /** What to do with a loaded marker. An interrupted download only restarts the version while
      nothing has been processed. */
  ghost function Decide(m: Marker): Decision {
    if m.download.status == Failed || m.download.status == InProgress then
      if CompletedCount(m.processing.byFile) > 0 then Continue else Reprocess
    else if m.processing.status == Failed || m.processing.status == InProgress then Continue
    else if m.overall == Completed then Skip
    else Continue
  }

  /** The files that still need processing, in the given order. */
  function PendingFiles(m: Marker, files: seq<FileName>): seq<FileName> {
    if files == [] then []
    else if IsCompleted(m.processing.byFile, files[0]) then PendingFiles(m, files[1..])
    else [files[0]] + PendingFiles(m, files[1..])
  }

  // ---- Totals ----

  datatype Total = Records | Messages | Batches

  function Amount(p: FileProgress, total: Total): nat {
    match total case Records => p.records case Messages => p.messages case Batches => p.batches
  }

  /** The sum over all files. A map has no order, so one is chosen; `SumWithout` shows that the
      choice does not matter. */
  ghost function Sum(progress: map<FileName, FileProgress>, total: Total): nat
    decreases |progress|
  {
    if progress == map[] then 0
    else
      var file :| file in progress;
      Amount(progress[file], total) + Sum(progress - {file}, total)
  }

  lemma {:induction false} SumWithout(progress: map<FileName, FileProgress>, total: Total, file: FileName)
    requires file in progress
    ensures Sum(progress, total) == Amount(progress[file], total) + Sum(progress - {file}, total)
    decreases |progress|
  {
    var chosen :| chosen in progress
      && Sum(progress, total) == Amount(progress[chosen], total) + Sum(progress - {chosen}, total);
    if chosen != file {
      SumWithout(progress - {chosen}, total, file);
      SumWithout(progress - {file}, total, chosen);
      assert progress - {chosen} - {file} == progress - {file} - {chosen};
    }
  }

  /** The phase totals are recomputed from the per-file progress, never adjusted. */
  ghost function SyncTotals(m: Marker): Marker {
    var progress := m.processing.byFile;
    m.(processing := m.processing.(records := Sum(progress, Records)),
       publishing := m.publishing.(messages := Sum(progress, Messages), batches := Sum(progress, Batches)))
  }

  ghost predicate Synced(m: Marker) {
    m == SyncTotals(m)
  }

  // ---- Transitions ----

  function StartDownload(m: Marker, filesTotal: nat, now: Time): Marker {
    m.(download := DownloadPhase(InProgress, Some(now), m.download.completedAt, 0, filesTotal, map[]))
  }

  function StartFileDownload(m: Marker, file: FileName, now: Time): Marker {
    m.(download := m.download.(byFile := m.download.byFile[file := FileDownload(InProgress, Some(now), None, None)]))
  }

  function FileDownloaded(m: Marker, file: FileName, now: Time): Marker {
    var files := m.download.byFile;
    var already := file in files && files[file].status == Completed;
    var entry := if file in files then files[file].(status := Completed, completedAt := Some(now))
                 else FileDownload(Completed, Some(now), Some(now), None);
    m.(download := m.download.(
         byFile := files[file := entry],
         filesDownloaded := if already then m.download.filesDownloaded else m.download.filesDownloaded + 1))
  }

  /** True when a completed processing status was computed from other bytes than these. */
  predicate IsStale(m: Marker, file: FileName, checksum: Hash) {
    && IsCompleted(m.processing.byFile, file)
    && m.processing.byFile[file].source.Some?
    && m.processing.byFile[file].source.value != checksum
  }

  function RecordChecksum(m: Marker, file: FileName, checksum: Hash): Marker {
    if file in m.download.byFile then
      m.(download :=
        m.download.(byFile := m.download.byFile[file := m.download.byFile[file].(checksum := Some(checksum))]))
    else m
  }

  /** Record the checksum of the bytes on disk, and re-queue the file if its completed status
      was computed from different ones. */
  ghost function FileBytesVerified(m: Marker, file: FileName, checksum: Hash): Marker {
    var recorded := RecordChecksum(m, file, checksum);
    if !IsStale(m, file, checksum) then recorded else Requeue(recorded, file)
  }

  ghost function Requeue(m: Marker, file: FileName): Marker {
    var p := m.processing;
    var dropped := SyncTotals(m.(processing := p.(
      byFile := p.byFile - {file},
      filesProcessed := if p.filesProcessed == 0 then 0 else p.filesProcessed - 1)));
    var reopened := dropped.(overall := if dropped.overall == Completed then InProgress else dropped.overall);
    if reopened.processing.status == Completed
    then reopened.(processing := reopened.processing.(status := InProgress, completedAt := None))
    else reopened
  }

  function CompleteDownload(m: Marker, now: Time): Marker {
    m.(download := m.download.(status := Completed, completedAt := Some(now)))
  }

  function StartProcessing(m: Marker, filesTotal: nat, now: Time): Marker {
    m.(processing :=
      m.processing.(status := InProgress, startedAt := Some(now), filesTotal := filesTotal, filesProcessed := 0,
                    records := 0),
       overall := InProgress)
  }

  /** A resumed run only refreshes the file total. */
  function ResumeProcessing(m: Marker, filesTotal: nat): Marker {
    m.(processing := m.processing.(filesTotal := filesTotal))
  }

  /** Bind a processing attempt to the bytes it is about to read. */
  function StartFileProcessing(m: Marker, file: FileName, now: Time): Marker {
    var source := if file in m.download.byFile then m.download.byFile[file].checksum else None;
    var entry := FileProgress(InProgress, 0, 0, 0, Some(now), None, source);
    m.(processing := m.processing.(currentFile := Some(file), byFile := m.processing.byFile[file := entry]))
  }

  ghost function UpdateFileProgress(m: Marker, file: FileName, records: nat, messages: nat, batches: nat): Marker {
    var p := m.processing;
    var synced := SyncTotals(if file in p.byFile
                             then m.(processing :=
                               p.(byFile := p.byFile[file :=
                                 p.byFile[file].(records := records, messages := messages, batches := batches)]))
                             else m);
    if synced.publishing.messages > 0 then synced.(publishing := synced.publishing.(status := InProgress)) else synced
  }

  ghost function CompleteFileProcessing(m: Marker, file: FileName, records: nat, now: Time): Marker {
    var p := m.processing;
    var files := if file in p.byFile
                 then p.byFile[file := FinishedProgress(p.byFile[file], records, now)]
                 else p.byFile;
    SyncTotals(m.(processing := p.(byFile := files, filesProcessed := p.filesProcessed + 1)))
  }

  function FinishedProgress(p: FileProgress, records: nat, now: Time): FileProgress {
    p.(status := Completed, completedAt := Some(now), records := records,
       messages := if p.messages == 0 then records else p.messages)
  }

  function CompleteProcessing(m: Marker, now: Time): Marker {
    m.(processing := m.processing.(status := Completed, completedAt := Some(now), currentFile := None))
  }

  function CompleteExtraction(m: Marker): Marker {
    m.(publishing := m.publishing.(status := Completed), overall := Completed)
  }
}
