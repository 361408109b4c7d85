/** What the marker's transitions keep when a run calls them in its own order. */
module MarkerFacts {
  import opened Json
  import opened Marker

  ghost predicate AllCompleted(m: Marker, files: seq<FileName>) {
    forall f :: f in files ==> IsCompleted(m.processing.byFile, f)
  }

  /** Every entry belongs to a file of the version, has run or is running, and started no
      earlier than the phase did. */
  ghost predicate EntriesOk(m: Marker, files: seq<FileName>) {
    forall f :: f in m.processing.byFile ==>
      && f in files
      && (m.processing.byFile[f].status == Completed || m.processing.byFile[f].status == InProgress)
      && m.processing.byFile[f].startedAt.Some?
      && m.processing.startedAt.Some?
      && m.processing.startedAt.value <= m.processing.byFile[f].startedAt.value
  }

  /** The phase totals may only lag behind while a file is being processed. */
  ghost predicate TotalsOk(m: Marker) {
    Synced(m) || exists f :: f in m.processing.byFile && m.processing.byFile[f].status == InProgress
  }

  ghost predicate PhasesOk(m: Marker, files: seq<FileName>) {
    && m.download.status != Failed && m.processing.status != Failed
    && (m.processing.status == Pending <==> m.processing.startedAt == None)
    && (m.processing.status == Pending ==> m.processing.byFile == map[])
    && (m.processing.status == Completed ==> AllCompleted(m, files))
    && (m.overall == Completed ==> m.processing.status == Completed && m.download.status == Completed)
  }

  ghost predicate MarkerOk(m: Marker, files: seq<FileName>, clock: Time) {
    && m.processing.filesProcessed == CompletedCount(m.processing.byFile)
    && EntriesOk(m, files)
    && TotalsOk(m)
    && PhasesOk(m, files)
    && (m.processing.startedAt.Some? ==> m.processing.startedAt.value <= clock)
  }

  lemma NewOk(files: seq<FileName>, clock: Time)
    ensures MarkerOk(New(), files, clock)
  {
    assert CompletedFiles(New().processing.byFile) == {};
  }

  /** A marker that a run can leave behind is skipped exactly when its extraction was finalized. */
  lemma SkipIffCompleted(m: Marker, files: seq<FileName>, clock: Time)
    requires MarkerOk(m, files, clock)
    ensures Decide(m) == Skip <==> m.overall == Completed
  {
  }

  predicate IsOpen(status: PhaseStatus) {
    status == Failed || status == InProgress
  }

  /** The download was cut short before any file had been completed. */
  ghost predicate Interrupted(m: Marker) {
    IsOpen(m.download.status) && forall f :: !IsCompleted(m.processing.byFile, f)
  }

  /** Of any marker: it is thrown away exactly when its download was cut short and it records no
      completed file; it is skipped exactly when the extraction is finalized and neither phase is
      open; and otherwise it is gone on with. */
  lemma DecisionIs(m: Marker)
    ensures Decide(m) == Reprocess <==> Interrupted(m)
    ensures Decide(m) == Skip <==>
            m.overall == Completed && !IsOpen(m.download.status) && !IsOpen(m.processing.status)
    ensures Decide(m) == Continue <==> Decide(m) != Reprocess && Decide(m) != Skip
  {
    if f :| IsCompleted(m.processing.byFile, f) {
      assert f in CompletedFiles(m.processing.byFile);
    } else {
      assert CompletedFiles(m.processing.byFile) == {};
    }
  }

  lemma StartDownloadOk(m: Marker, files: seq<FileName>, clock: Time)
    requires MarkerOk(m, files, clock) && m.overall != Completed
    ensures MarkerOk(StartDownload(m, |files|, clock), files, clock)
  {
  }

  lemma StartFileDownloadOk(m: Marker, files: seq<FileName>, clock: Time, f: FileName)
    requires MarkerOk(m, files, clock)
    ensures MarkerOk(StartFileDownload(m, f, clock), files, clock)
  {
  }

  lemma CompleteDownloadOk(m: Marker, files: seq<FileName>, clock: Time)
    requires MarkerOk(m, files, clock)
    ensures MarkerOk(CompleteDownload(m, clock), files, clock)
  {
  }

  lemma FileDownloadedOk(m: Marker, files: seq<FileName>, clock: Time, f: FileName)
    requires MarkerOk(m, files, clock)
    ensures MarkerOk(FileDownloaded(m, f, clock), files, clock)
  {
  }

  lemma RequeueOk(m: Marker, files: seq<FileName>, clock: Time, f: FileName)
    requires MarkerOk(m, files, clock) && IsCompleted(m.processing.byFile, f)
    ensures MarkerOk(Requeue(m, f), files, clock)
  {
    var before, after := CompletedFiles(m.processing.byFile), CompletedFiles(Requeue(m, f).processing.byFile);
    assert f in before && after == before - {f};
  }

  lemma FileBytesVerifiedOk(m: Marker, files: seq<FileName>, clock: Time, f: FileName, checksum: Hash)
    requires MarkerOk(m, files, clock)
    ensures MarkerOk(FileBytesVerified(m, f, checksum), files, clock)
  {
    var recorded := RecordChecksum(m, f, checksum);
    assert MarkerOk(recorded, files, clock);
    if IsStale(m, f, checksum) {
      RequeueOk(recorded, files, clock, f);
    }
  }

  lemma StartProcessingOk(m: Marker, files: seq<FileName>, clock: Time)
    requires MarkerOk(m, files, clock) && m.processing.status == Pending
    ensures MarkerOk(StartProcessing(m, |files|, clock), files, clock)
  {
    assert CompletedFiles(m.processing.byFile) == {};
    assert Synced(m);
    assert Sum(m.processing.byFile, Records) == 0;
  }

  lemma ResumeProcessingOk(m: Marker, files: seq<FileName>, clock: Time)
    requires MarkerOk(m, files, clock)
    ensures MarkerOk(ResumeProcessing(m, |files|), files, clock)
  {
  }

  lemma StartFileProcessingOk(m: Marker, files: seq<FileName>, clock: Time, f: FileName)
    requires MarkerOk(m, files, clock) && m.processing.status == InProgress && f in files
    requires !IsCompleted(m.processing.byFile, f)
    ensures MarkerOk(StartFileProcessing(m, f, clock), files, clock)
  {
    var m' := StartFileProcessing(m, f, clock);
    assert CompletedFiles(m'.processing.byFile) == CompletedFiles(m.processing.byFile);
    assert m'.processing.byFile[f].status == InProgress;
  }

  lemma UpdateFileProgressOk(m: Marker, files: seq<FileName>, clock: Time, f: FileName, records: nat, batches: nat)
    requires MarkerOk(m, files, clock) && f in m.processing.byFile && !IsCompleted(m.processing.byFile, f)
    ensures MarkerOk(UpdateFileProgress(m, f, records, records, batches), files, clock)
  {
    var m' := UpdateFileProgress(m, f, records, records, batches);
    assert CompletedFiles(m'.processing.byFile) == CompletedFiles(m.processing.byFile);
  }

  lemma CompleteFileProcessingOk(m: Marker, files: seq<FileName>, clock: Time, f: FileName, records: nat)
    requires MarkerOk(m, files, clock) && m.processing.status == InProgress
    requires f in m.processing.byFile && !IsCompleted(m.processing.byFile, f)
    ensures MarkerOk(CompleteFileProcessing(m, f, records, clock), files, clock)
  {
    var m' := CompleteFileProcessing(m, f, records, clock);
    assert CompletedFiles(m'.processing.byFile) == CompletedFiles(m.processing.byFile) + {f};
  }

  lemma CompleteProcessingOk(m: Marker, files: seq<FileName>, clock: Time)
    requires MarkerOk(m, files, clock) && AllCompleted(m, files) && m.processing.startedAt.Some?
    ensures MarkerOk(CompleteProcessing(m, clock), files, clock)
  {
  }

  lemma CompleteExtractionOk(m: Marker, files: seq<FileName>, clock: Time)
    requires MarkerOk(m, files, clock) && m.processing.status == Completed && m.download.status == Completed
    ensures MarkerOk(CompleteExtraction(m), files, clock)
  {
  }

  /** Once every file is completed the phase totals are exact: nothing can be lagging. */
  lemma TotalsExact(m: Marker, files: seq<FileName>, clock: Time)
    requires MarkerOk(m, files, clock) && AllCompleted(m, files)
    ensures Synced(m) && m.processing.records == Sum(m.processing.byFile, Records)
  {
  }

  lemma {:induction false} PendingFilesSpec(m: Marker, files: seq<FileName>, f: FileName)
    ensures f in PendingFiles(m, files) <==> f in files && !IsCompleted(m.processing.byFile, f)
  {
    if files != [] {
      PendingFilesSpec(m, files[1..], f);
      assert files == [files[0]] + files[1..];
    }
  }

  /** All that verifying a file's bytes changes: its own download entry and, if its completed
      status was computed from other bytes, its own processing entry. */
  lemma VerifiedFacts(m: Marker, files: seq<FileName>, clock: Time, f: FileName, checksum: Hash)
    requires MarkerOk(m, files, clock) && m.overall != Completed
    ensures var m' := FileBytesVerified(FileDownloaded(m, f, clock), f, checksum);
            && MarkerOk(m', files, clock)
            && m'.download.status == m.download.status && m'.overall == m.overall
            && m'.processing.startedAt == m.processing.startedAt
            && m'.download.byFile == m.download.byFile[f := m'.download.byFile[f]]
            && m'.download.byFile[f].checksum == Some(checksum)
            && m'.processing.byFile
              == (if IsStale(m, f, checksum) then m.processing.byFile - {f} else m.processing.byFile)
            && (IsCompleted(m'.processing.byFile, f) && m'.processing.byFile[f].source.Some? ==>
                m'.processing.byFile[f].source == Some(checksum))
  {
    FileDownloadedOk(m, files, clock, f);
    FileBytesVerifiedOk(FileDownloaded(m, f, clock), files, clock, f, checksum);
  }
}
