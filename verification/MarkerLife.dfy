/** The life of a file and of a phase in the marker, over several transitions. */
module MarkerLife {
  import opened Json
  import opened Marker

  /** What each update writes. */
  datatype Counters = Counters(records: nat, messages: nat, batches: nat)

  ghost function Updated(m: Marker, file: FileName, updates: seq<Counters>): Marker {
    if updates == [] then m
    else
      var k := |updates| - 1;
      UpdateFileProgress(Updated(m, file, updates[..k]), file, updates[k].records, updates[k].messages,
                         updates[k].batches)
  }

  /** Nothing about any other file's processing, and nothing about any download, differs. */
  ghost predicate OnlyProcesses(m: Marker, m': Marker, file: FileName) {
    && m'.download == m.download && m'.overall == m.overall
    && m'.processing.startedAt == m.processing.startedAt && m'.processing.completedAt == m.processing.completedAt
    && m'.processing.status == m.processing.status && m'.processing.filesTotal == m.processing.filesTotal
    && (forall g :: g != file ==>
          (g in m'.processing.byFile <==> g in m.processing.byFile)
          && (g in m.processing.byFile ==> m'.processing.byFile[g] == m.processing.byFile[g]))
  }

  /** An attempt begins: a fresh entry, started now, from the bytes last verified; the totals and the
      count of completed files are not touched. */
  lemma AttemptBegins(m: Marker, file: FileName, now: Time)
    ensures var m' := StartFileProcessing(m, file, now);
            && OnlyProcesses(m, m', file) && m'.publishing == m.publishing
            && m'.processing.filesProcessed == m.processing.filesProcessed
            && m'.processing.records == m.processing.records
            && m'.processing.currentFile == Some(file)
            && file in m'.processing.byFile
            && var p := m'.processing.byFile[file];
               && p.status == InProgress && p.startedAt == Some(now) && p.completedAt == None
               && p.records == 0 && p.messages == 0 && p.batches == 0
               && p.source == if file in m.download.byFile then m.download.byFile[file].checksum else None
  {
  }

  /** An update of an entry writes its three counters, and brings the totals up to date. */
  lemma UpdateWrites(m: Marker, file: FileName, c: Counters)
    requires file in m.processing.byFile
    ensures var m' := UpdateFileProgress(m, file, c.records, c.messages, c.batches);
            && OnlyProcesses(m, m', file)
            && m'.processing.filesProcessed == m.processing.filesProcessed
            && m'.processing.currentFile == m.processing.currentFile
            && file in m'.processing.byFile
            && var p, p' := m.processing.byFile[file], m'.processing.byFile[file];
               && p'.records == c.records && p'.messages == c.messages && p'.batches == c.batches
               && p'.status == p.status && p'.startedAt == p.startedAt && p'.completedAt == p.completedAt
               && p'.source == p.source
    ensures var m' := UpdateFileProgress(m, file, c.records, c.messages, c.batches);
            && m'.processing.records == Sum(m'.processing.byFile, Records)
            && m'.publishing.messages == Sum(m'.processing.byFile, Messages)
            && m'.publishing.batches == Sum(m'.processing.byFile, Batches)
            && m'.publishing.status == if m'.publishing.messages > 0 then InProgress else m.publishing.status
  {
  }

  /** A file that is done has its final count of records, and one more file is completed; messages that
      were never counted are as many as the records. */
  lemma CompletionWrites(m: Marker, file: FileName, records: nat, now: Time)
    requires file in m.processing.byFile
    ensures var m' := CompleteFileProcessing(m, file, records, now);
            && OnlyProcesses(m, m', file)
            && m'.processing.filesProcessed == m.processing.filesProcessed + 1
            && m'.processing.currentFile == m.processing.currentFile
            && m'.publishing.status == m.publishing.status
            && file in m'.processing.byFile
            && var p, p' := m.processing.byFile[file], m'.processing.byFile[file];
               && p'.status == Completed && p'.completedAt == Some(now) && p'.records == records
               && p'.messages == (if p.messages == 0 then records else p.messages)
               && p'.batches == p.batches && p'.startedAt == p.startedAt && p'.source == p.source
    ensures var m' := CompleteFileProcessing(m, file, records, now);
            && m'.processing.records == Sum(m'.processing.byFile, Records)
            && m'.publishing.messages == Sum(m'.processing.byFile, Messages)
            && m'.publishing.batches == Sum(m'.processing.byFile, Batches)
  {
  }

  lemma {:induction false} UpdatesWrite(m: Marker, file: FileName, updates: seq<Counters>)
    requires file in m.processing.byFile
    ensures var m' := Updated(m, file, updates);
            && OnlyProcesses(m, m', file) && m'.processing.filesProcessed == m.processing.filesProcessed
            && file in m'.processing.byFile
            && var p, p' := m.processing.byFile[file], m'.processing.byFile[file];
               && p'.status == p.status && p'.startedAt == p.startedAt && p'.completedAt == p.completedAt
               && p'.source == p.source
               && (if updates == [] then p' == p
                   else
                     var last := updates[|updates| - 1];
                     p'.records == last.records && p'.messages == last.messages && p'.batches == last.batches)
  {
    if updates != [] {
      var k := |updates| - 1;
      UpdatesWrite(m, file, updates[..k]);
      UpdateWrites(Updated(m, file, updates[..k]), file, updates[k]);
    }
  }

  /** The life of a file: started, updated any number of times, and completed. Its entry has its own
      times, the bytes it was started from, the parser's records, and the counters last written; no
      other file's entry has changed, one more file is completed, and the totals are the sums. */
  lemma FileLife(m: Marker, file: FileName, start: Time, updates: seq<Counters>, records: nat, end: Time)
    ensures var m' :=
            CompleteFileProcessing(Updated(StartFileProcessing(m, file, start), file, updates), file, records, end);
            && OnlyProcesses(m, m', file)
            && m'.processing.filesProcessed == m.processing.filesProcessed + 1
            && Synced(m') && file in m'.processing.byFile
            && var messages := if updates == [] then 0 else updates[|updates| - 1].messages;
               m'.processing.byFile[file]
               == FileProgress(Completed, records, if messages == 0 then records else messages,
                               if updates == [] then 0 else updates[|updates| - 1].batches, Some(start), Some(end),
                               if file in m.download.byFile then m.download.byFile[file].checksum else None)
  {
    var started := StartFileProcessing(m, file, start);
    AttemptBegins(m, file, start);
    UpdatesWrite(started, file, updates);
    CompletionWrites(Updated(started, file, updates), file, records, end);
  }

  // ---- Downloads ----

  ghost predicate OnlyDownloads(m: Marker, m': Marker, file: FileName) {
    && m'.processing == m.processing && m'.publishing == m.publishing && m'.overall == m.overall
    && m'.download.status == m.download.status && m'.download.startedAt == m.download.startedAt
    && m'.download.completedAt == m.download.completedAt && m'.download.filesTotal == m.download.filesTotal
    && (forall g :: g != file ==>
          (g in m'.download.byFile <==> g in m.download.byFile)
          && (g in m.download.byFile ==> m'.download.byFile[g] == m.download.byFile[g]))
  }

  /** The life of a download: started, received and verified. The entry has its times and the verified
      checksum, and one more file is downloaded, unless it was before. */
  lemma DownloadLife(m: Marker, file: FileName, start: Time, end: Time, checksum: Hash)
    ensures var m' := RecordChecksum(FileDownloaded(StartFileDownload(m, file, start), file, end), file, checksum);
            && OnlyDownloads(m, m', file)
            && m'.download.filesDownloaded == m.download.filesDownloaded + 1
            && file in m'.download.byFile
            && m'.download.byFile[file] == FileDownload(Completed, Some(start), Some(end), Some(checksum))
  {
  }

  /** A file that is kept without a download is counted once. */
  lemma KeptIsCountedOnce(m: Marker, file: FileName, now: Time, later: Time)
    ensures var once := FileDownloaded(m, file, now); var twice := FileDownloaded(once, file, later);
            && OnlyDownloads(m, twice, file)
            && twice.download.filesDownloaded == once.download.filesDownloaded
            && once.download.filesDownloaded
               == m.download.filesDownloaded
                  + (if file in m.download.byFile && m.download.byFile[file].status == Completed then 0 else 1)
            && file in twice.download.byFile && twice.download.byFile[file].status == Completed
            && twice.download.byFile[file].completedAt == Some(later)
            && (file in m.download.byFile ==>
                  && twice.download.byFile[file].startedAt == m.download.byFile[file].startedAt
                  && twice.download.byFile[file].checksum == m.download.byFile[file].checksum)
            && (file !in m.download.byFile ==>
                  && once.download.byFile[file] == FileDownload(Completed, Some(now), Some(now), None)
                  && twice.download.byFile[file] == FileDownload(Completed, Some(now), Some(later), None))
  {
  }

  /** A re-queued file is as if it had never been processed: its entry is gone, one file less is
      completed, and a finished phase is open again; the others stay. */
  lemma RequeuedIsPending(m: Marker, file: FileName, checksum: Hash)
    requires IsStale(m, file, checksum)
    ensures var m' := FileBytesVerified(m, file, checksum);
            && file !in m'.processing.byFile
            && (forall g :: g != file ==>
                  (g in m'.processing.byFile <==> g in m.processing.byFile)
                  && (g in m.processing.byFile ==> m'.processing.byFile[g] == m.processing.byFile[g]))
            && m'.processing.filesProcessed
               == (if m.processing.filesProcessed == 0 then 0 else m.processing.filesProcessed - 1)
            && m'.processing.startedAt == m.processing.startedAt
            && m'.processing.status == (if m.processing.status == Completed then InProgress else m.processing.status)
            && m'.processing.completedAt
              == (if m.processing.status == Completed then None else m.processing.completedAt)
            && m'.overall == (if m.overall == Completed then InProgress else m.overall)
            && Synced(m')
  {
  }

  // ---- Phases ----

  /** A new version: nothing downloaded, nothing processed, nothing published. */
  lemma NewIsBlank()
    ensures var m := New();
            && m.download.status == Pending && m.download.byFile == map[] && m.download.filesDownloaded == 0
            && m.processing.status == Pending && m.processing.byFile == map[] && m.processing.startedAt == None
            && m.processing.filesProcessed == 0 && m.processing.records == 0
            && m.publishing == PublishingPhase(Pending, 0, 0) && m.overall == Pending
  {
  }

  /** The download phase from its start to its end leaves the processing as it was. */
  lemma DownloadPhaseLife(m: Marker, files: nat, start: Time, end: Time)
    ensures var begun := StartDownload(m, files, start); var done := CompleteDownload(begun, end);
            && begun.download.status == InProgress && begun.download.startedAt == Some(start)
            && begun.download.filesTotal == files && begun.download.filesDownloaded == 0
              && begun.download.byFile == map[]
            && done.download == begun.download.(status := Completed, completedAt := Some(end))
            && done.processing == m.processing && done.publishing == m.publishing && done.overall == m.overall
  {
  }

  /** The processing phase keeps its start through a resume and to its end, and its entries throughout;
      it is finalized apart from that. */
  lemma ProcessingPhaseLife(m: Marker, files: nat, start: Time, filesLater: nat, end: Time)
    ensures var begun := StartProcessing(m, files, start);
            var resumed := ResumeProcessing(begun, filesLater);
            var done := CompleteProcessing(resumed, end);
            var final := CompleteExtraction(done);
            && begun.processing.status == InProgress && begun.overall == InProgress
            && begun.processing.startedAt == Some(start) && begun.processing.filesTotal == files
            && begun.processing.filesProcessed == 0 && begun.processing.records == 0
            && begun.processing.byFile == m.processing.byFile
            && resumed == begun.(processing := begun.processing.(filesTotal := filesLater))
            && done.processing.status == Completed && done.processing.completedAt == Some(end)
            && done.processing.startedAt == Some(start) && done.processing.currentFile == None
            && done.processing.byFile == m.processing.byFile && done.overall == InProgress
            && done.publishing == m.publishing && done.download == m.download
            && final == done.(publishing := done.publishing.(status := Completed), overall := Completed)
  {
  }
}
