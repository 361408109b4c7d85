/** The state marker as the object that a run updates in place. Every method is proved against
    the transition of the same name in `Marker`. */
module StateMarker {
  import opened Json
  import M = Marker
  import opened Marker

  class StateMarker {
    var download: DownloadPhase
    var processing: ProcessingPhase
    var publishing: PublishingPhase
    var overall: PhaseStatus

    /** What `save` writes and `load` reads back. */
    function Snapshot(): Marker
      reads this
    {
      Marker(download, processing, publishing, overall)
    }

    constructor ()
      ensures Snapshot() == M.New()
    {
      download := DownloadPhase(Pending, None, None, 0, 0, map[]);
      processing := ProcessingPhase(Pending, None, None, 0, 0, 0, None, map[]);
      publishing := PublishingPhase(Pending, 0, 0);
      overall := Pending;
    }

    ghost function CompletedIn(files: set<FileName>): set<FileName>
      reads this
    {
      set f | f in files && IsCompleted(processing.byFile, f)
    }

    method CompletedFileCount() returns (count: nat)
      ensures count == CompletedCount(processing.byFile)
    {
      count := 0;
      var todo := processing.byFile.Keys;
      ghost var seen: set<FileName> := {};
      while todo != {}
        invariant todo !! seen && todo + seen == processing.byFile.Keys
        invariant count == |CompletedIn(seen)|
        decreases |todo|
      {
        var file :| file in todo;
        ghost var before, after := CompletedIn(seen), CompletedIn(seen + {file});
        todo, seen := todo - {file}, seen + {file};
        if processing.byFile[file].status == Completed {
          count := count + 1;
          assert after == before + {file};
        } else {
          assert after == before;
        }
      }
      assert CompletedFiles(processing.byFile) == CompletedIn(seen);
    }

    method ShouldProcess() returns (decision: Decision)
      ensures decision == Decide(Snapshot())
    {
      if download.status == Failed || download.status == InProgress {
        var completed := CompletedFileCount();
        return if completed > 0 then Continue else Reprocess;
      }
      if processing.status == Failed {
        return Continue;
      }
      if processing.status == InProgress {
        return Continue;
      }
      if overall == Completed {
        return Skip;
      }
      return Continue;
    }

    method PendingFiles(files: seq<FileName>) returns (pending: seq<FileName>)
      ensures pending == M.PendingFiles(Snapshot(), files)
    {
      pending := [];
      for i := 0 to |files|
        invariant pending + M.PendingFiles(Snapshot(), files[i..]) == M.PendingFiles(Snapshot(), files)
      {
        if files[i] !in processing.byFile || processing.byFile[files[i]].status != Completed {
          pending := pending + [files[i]];
        }
      }
    }

    method StartDownload(filesTotal: nat, now: Time)
      modifies this`download
      ensures Snapshot() == M.StartDownload(old(Snapshot()), filesTotal, now)
    {
      download := download.(status := InProgress);
      download := download.(startedAt := Some(now));
      download := download.(filesTotal := filesTotal);
      download := download.(filesDownloaded := 0);
      download := download.(byFile := map[]);
    }

    method StartFileDownload(file: FileName, now: Time)
      modifies this`download
      ensures Snapshot() == M.StartFileDownload(old(Snapshot()), file, now)
    {
      download := download.(byFile := download.byFile[file := FileDownload(InProgress, Some(now), None, None)]);
    }

    method FileDownloaded(file: FileName, now: Time)
      modifies this`download
      ensures Snapshot() == M.FileDownloaded(old(Snapshot()), file, now)
    {
      var already := file in download.byFile && download.byFile[file].status == Completed;
      if file in download.byFile {
        var entry := download.byFile[file].(status := Completed, completedAt := Some(now));
        download := download.(byFile := download.byFile[file := entry]);
      } else {
        download := download.(byFile := download.byFile[file := FileDownload(Completed, Some(now), Some(now), None)]);
      }
      if !already {
        download := download.(filesDownloaded := download.filesDownloaded + 1);
      }
    }

    method FileBytesVerified(file: FileName, checksum: Hash) returns (invalidated: bool)
      modifies this
      ensures Snapshot() == M.FileBytesVerified(old(Snapshot()), file, checksum)
      ensures invalidated == IsStale(old(Snapshot()), file, checksum)
    {
      var previous: Option<Hash> := None;
      if file in processing.byFile && processing.byFile[file].status == Completed {
        previous := processing.byFile[file].source;
      }
      if file in download.byFile {
        download := download.(byFile := download.byFile[file := download.byFile[file].(checksum := Some(checksum))]);
      }
      if previous.None? || previous.value == checksum {
        return false;
      }
      processing := processing.(byFile := processing.byFile - {file});
      processing := processing.(filesProcessed := if processing.filesProcessed == 0 then 0
                                else processing.filesProcessed - 1);
      SyncPhaseTotals();
      if overall == Completed {
        overall := InProgress;
      }
      if processing.status == Completed {
        processing := processing.(status := InProgress, completedAt := None);
      }
      return true;
    }

    method CompleteDownload(now: Time)
      modifies this`download
      ensures Snapshot() == M.CompleteDownload(old(Snapshot()), now)
    {
      download := download.(status := Completed, completedAt := Some(now));
    }

    method StartProcessing(filesTotal: nat, now: Time)
      modifies this`processing, this`overall
      ensures Snapshot() == M.StartProcessing(old(Snapshot()), filesTotal, now)
    {
      processing := processing.(status := InProgress, startedAt := Some(now));
      processing := processing.(filesTotal := filesTotal, filesProcessed := 0, records := 0);
      overall := InProgress;
    }

    method StartFileProcessing(file: FileName, now: Time)
      modifies this`processing
      ensures Snapshot() == M.StartFileProcessing(old(Snapshot()), file, now)
    {
      processing := processing.(currentFile := Some(file));
      var source: Option<Hash> := None;
      if file in download.byFile {
        source := download.byFile[file].checksum;
      }
      processing := processing.(byFile :=
        processing.byFile[file := FileProgress(InProgress, 0, 0, 0, Some(now), None, source)]);
    }

    method UpdateFileProgress(file: FileName, records: nat, messages: nat, batches: nat)
      modifies this`processing, this`publishing
      ensures Snapshot() == M.UpdateFileProgress(old(Snapshot()), file, records, messages, batches)
    {
      if file in processing.byFile {
        var entry := processing.byFile[file].(records := records, messages := messages, batches := batches);
        processing := processing.(byFile := processing.byFile[file := entry]);
      }
      SyncPhaseTotals();
      if publishing.messages > 0 {
        publishing := publishing.(status := InProgress);
      }
    }

    method CompleteFileProcessing(file: FileName, records: nat, now: Time)
      modifies this`processing, this`publishing
      ensures Snapshot() == M.CompleteFileProcessing(old(Snapshot()), file, records, now)
    {
      if file in processing.byFile {
        var entry := processing.byFile[file].(status := Completed, completedAt := Some(now), records := records);
        if entry.messages == 0 {
          entry := entry.(messages := records);
        }
        processing := processing.(byFile := processing.byFile[file := entry]);
      }
      processing := processing.(filesProcessed := processing.filesProcessed + 1);
      SyncPhaseTotals();
    }

    /** Whatever order the map is walked in, the total comes out as the sum. */
    method TotalOf(total: Total) returns (sum: nat)
      ensures sum == Sum(processing.byFile, total)
    {
      sum := 0;
      var todo := processing.byFile;
      while todo != map[]
        invariant sum + Sum(todo, total) == Sum(processing.byFile, total)
        decreases |todo|
      {
        var file :| file in todo;
        SumWithout(todo, total, file);
        sum := sum + Amount(todo[file], total);
        todo := todo - {file};
      }
    }

    method SyncPhaseTotals()
      modifies this`processing, this`publishing
      ensures Snapshot() == SyncTotals(old(Snapshot()))
    {
      var records := TotalOf(Records);
      processing := processing.(records := records);
      var messages := TotalOf(Messages);
      publishing := publishing.(messages := messages);
      var batches := TotalOf(Batches);
      publishing := publishing.(batches := batches);
    }

    method CompleteProcessing(now: Time)
      modifies this`processing
      ensures Snapshot() == M.CompleteProcessing(old(Snapshot()), now)
    {
      processing := processing.(status := Completed, completedAt := Some(now), currentFile := None);
    }

    method CompleteExtraction()
      modifies this`publishing, this`overall
      ensures Snapshot() == M.CompleteExtraction(old(Snapshot()))
    {
      publishing := publishing.(status := Completed);
      overall := Completed;
    }
  }
}
