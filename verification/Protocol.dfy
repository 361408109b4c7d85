/** The life of the producer across runs, failures, shutdowns and crashes, for one version of
    the dumps. One process at a time: it lists the dumps, loads or replaces the state marker,
    downloads and verifies the files, processes the pending ones concurrently, announces each
    with file_complete, and broadcasts extraction_complete when all are done. Every step may be
    the last one before a crash, and every call to the outside may fail.

    The state machine's steps are the points where something outside a task can change or be
    observed: a durable write, a message confirmed by the broker, a flag, a failure. */
module Protocol {
  import opened Json
  import opened Marker
  import Pipeline

  type Bytes = seq<nat>

  datatype DataType = Artists | Labels | Masters | Releases

  /** The exchanges, in broadcast order. */
  const EXCHANGES: seq<DataType> := [Artists, Labels, Masters, Releases]

  /** The version's files, one per data type; the hash and the parser are functions of the bytes. */
  datatype Config = Config(
    files: seq<FileName>,
    kind: map<FileName, DataType>,
    hash: Bytes -> Hash,
    parse: Bytes -> seq<DataMessage>,
    pipeline: Pipeline.Config)

  ghost predicate ValidConfig(cfg: Config) {
    && (forall f :: f in cfg.kind <==> f in cfg.files)
    && (forall f, g :: f in cfg.files && g in cfg.files && cfg.kind[f] == cfg.kind[g] ==> f == g)
    && Distinct(cfg.files)
  }

  ghost predicate Distinct(files: seq<FileName>) {
    forall i, j :: 0 <= i < j < |files| ==> files[i] != files[j]
  }

  /** What has durably happened, in order: snapshots that reached the disk and messages that
      the broker acked and routed. */
  datatype Event =
    | Saved(gen: nat, marker: Marker)
    | Confirmed(attempt: nat, batch: seq<DataMessage>)
    | FileComplete(attempt: nat, gen: nat, file: FileName, start: Time, src: Bytes, count: nat)
    | ExtractionComplete(exchange: DataType, gen: nat, startedAt: Time, counts: map<DataType, nat>)

  /** One processing attempt of one file: when it started, the bytes it reads, its pipeline. */
  datatype Attempt = Attempt(id: nat, start: Time, src: Bytes, pipe: Pipeline.State)

  /** A spawned file task. `Admitted` is past the shutdown guard, `Announced` past file_complete;
      a failed task's remaining stages may still be draining. */
  datatype Task =
    | Queued
    | Admitted
    | Skipped
    | Active(attempt: Attempt)
    | Announced(attempt: Attempt)
    | Done
    | Failing(draining: Option<Attempt>)

  datatype ExtractionStatus = Idle | Running | Succeeded | Waiting | Broken

  /** Why the marker in memory is not the one on disk. */
  datatype Origin = Resumed | Absent | Forced | Unreadable | Restarted

  datatype Pc =
    | Down                                    // not running: crashed or exited
    | Parked                                  // in the loop's select!
    | Entering(force: bool)                   // process_discogs_data called
    | Listing(force: bool)                    // status is Running
    | Opening                                 // marker chosen, download about to start
    | Checking(i: nat)                        // download loop, file i
    | Fetching(i: nat)                        // downloading file i
    | Fetched(i: nat)                         // file i received, not yet trusted
    | Closing                                 // complete_download done, metadata not saved
    | Downloaded                              // download phase returned Ok
    | Starting                                // start_processing or resume done, save due
    | Ready                                   // pending files about to be listed
    | Processing
    | Finalizing(success: bool)               // progress final for this run, save due
    | Connecting                              // connection for the broadcast
    | Broadcasting(k: nat, failed: bool)
    | Committing                              // complete_extraction done, save due

  datatype State = State(
    // survives a crash
    disk: map<FileName, Bytes>,
    metaFile: map<FileName, Hash>,
    durable: Option<Marker>,
    // history, and the generation of a marker: new whenever one is created
    durableGen: nat,
    nextGen: nat,
    nextAttempt: nat,
    clock: Time,
    history: seq<Event>,
    // lost in a crash
    pc: Pc,
    initial: bool,
    runStarted: Time, // extraction_started_at of this run
    status: ExtractionStatus,
    shutdown: bool,
    trigger: Option<bool>,
    metadata: map<FileName, Hash>,
    published: Option<map<FileName, Hash>>,
    memory: Marker,
    gen: nat,
    origin: Origin,
    counts: map<DataType, nat>, // record_counts of the broadcast
    progress: map<DataType, nat>, // extraction_progress, which the health endpoint shows
    tasks: map<FileName, Task>)

  datatype Step =
    | Outside(event: OutsideStep)
    | Loop(loop: LoopStep)
    | Download(download: DownloadStep)
    | File(file: FileName, task: TaskStep)
    | Finish(finish: FinishStep)

  /** What happens to the process: time, a signal, an API trigger, a crash. */
  datatype OutsideStep = Tick(elapsed: nat) | Signal | SetTrigger(force: bool) | Crash

  /** The periodic loop, and the start of a run up to the choice of the marker. `downloader` says
      whether a downloader could be built, `metaReadable` whether its metadata file parsed. */
  datatype LoopStep =
    | Boot(bootForce: bool, metaReadable: bool)
    | Timer(downloader: bool, metaReadable: bool)
    | TakeTrigger(downloader: bool, metaReadable: bool)
    | SeeShutdown
    | Enter
    | ListEmpty
    | ListOk(readable: bool)
    | Abort // any `?` in a run: a failed listing, download, checksum or mandatory save

  /** `saved` says whether the best-effort save of the marker reached the disk. */
  datatype DownloadStep =
    | StartDownloads(published: Option<map<FileName, Hash>>, saved: bool)
    | KeepFile(saved: bool)
    | FetchStart(saved: bool)
    | FetchPartial(left: Option<Bytes>)
    | FetchOk(bytes: Bytes)
    | RejectFile(removed: bool)
    | SaveMetadata
    | AcceptFile(saved: bool)
    | FinishDownloads(saved: bool)
    | DownloadsOk

  datatype TaskStep =
    | Skip
    | Admit
    | Start(saved: bool)
    | Pipe(action: Pipeline.Step)
    | Progress(saved: bool)
    | Announce
    | Complete(saved: bool)
    | Fail

  datatype FinishStep = BeginProcessing | SaveOk | Spawn | Join | Connect(ok: bool) | Publish(ok: bool) | BroadcastEnd

  // ---- Shared pieces ----

  /** The marker in memory replaces the one on disk, atomically. */
  function Save(s: State): State {
    s.(durable := Some(s.memory), durableGen := s.gen, history := s.history + [Saved(s.gen, s.memory)])
  }

  /** A save whose failure is only logged. */
  function TrySave(s: State, saved: bool): State {
    if saved then Save(s) else s
  }

  datatype Outcome = OkTrue | OkFalse | Err

  /** The top of the periodic loop, entered with this status: leave on shutdown, else wait. */
  function LoopTop(s: State, status: ExtractionStatus): State {
    s.(pc := if s.shutdown then Down else Parked,
       initial := false,
       status := if status == Succeeded && !s.shutdown then Waiting else status,
       tasks := map[])
  }

  /** A run has returned. The initial one decides whether the process lives on; a later one that
      returned Err has its status set by the loop. */
  function EndRun(s: State, outcome: Outcome): State {
    if s.initial && (outcome == Err || (outcome == OkFalse && !s.shutdown)) then s.(pc := Down, tasks := map[])
    else LoopTop(s, if outcome == Err then Broken else s.status)
  }

  function NewMarker(s: State, origin: Origin): State {
    s.(memory := New(), gen := s.nextGen, nextGen := s.nextGen + 1, origin := origin)
  }

  /** The marker a run starts from: created on force, when none exists, or when it cannot be read. */
  function OpenMarker(s: State, force: bool, readable: bool): State {
    if force then NewMarker(s, Forced)
    else if s.durable == None then NewMarker(s, Absent)
    else if !readable then NewMarker(s, Unreadable)
    else s.(memory := s.durable.value, gen := s.durableGen, origin := Resumed)
  }

  /** What `should_process` makes of the marker: done already, start over, or go on. */
  ghost function Decided(s: State): State {
    match Decide(s.memory)
    case Skip => EndRun(s.(status := Succeeded), OkTrue)
    case Reprocess => NewMarker(s, Restarted).(pc := Opening)
    case Continue => s.(pc := Opening)
  }

  /** `should_download`, and the cross-check against the published checksum. */
  predicate NeedsDownload(cfg: Config, s: State, file: FileName) {
    || file !in s.disk
    || file !in s.metadata
    || cfg.hash(s.disk[file]) != s.metadata[file]
    || (s.published.Some? && file in s.published.value && s.metadata[file] != s.published.value[file])
  }

  /** The published checksum, if one is listed, is the one just recorded. */
  predicate MatchesPublished(s: State, file: FileName) {
    s.published.Some? && file in s.published.value ==> file in s.metadata && s.metadata[file] == s.published.value[file]
  }

  /** `file_downloaded` and then `file_bytes_verified` with the recorded checksum. */
  ghost function Trust(s: State, file: FileName): State {
    var downloaded := FileDownloaded(s.memory, file, s.clock);
    s.(memory := if file in s.metadata then FileBytesVerified(downloaded, file, s.metadata[file]) else downloaded)
  }

  /** Per-type counts from the persisted progress. */
  ghost function RecordCounts(cfg: Config, m: Marker): map<DataType, nat> {
    var kinds := set f | f in m.processing.byFile && f in cfg.kind :: cfg.kind[f];
    map d | d in kinds ::
      var f :| f in m.processing.byFile && f in cfg.kind && cfg.kind[f] == d; m.processing.byFile[f].records
  }

  // ---- The progress in memory ----

  function Shown(progress: map<DataType, nat>, d: DataType): nat {
    if d in progress then progress[d] else 0
  }

  /** The records of the completed files of one type, as they are added up from the marker. The
      map is visited in some order; with one file per type there is nothing to choose. */
  ghost function CompletedRecords(cfg: Config, byFile: map<FileName, FileProgress>, d: DataType): nat
    decreases |byFile|
  {
    if byFile == map[] then 0
    else
      var f :| f in byFile;
      (if IsCompleted(byFile, f) && f in cfg.kind && cfg.kind[f] == d then byFile[f].records else 0)
      + CompletedRecords(cfg, byFile - {f}, d)
  }

  /** What a resumed run starts from: the files completed in earlier sessions. */
  ghost function Rehydrated(cfg: Config, s: State): map<DataType, nat> {
    map d: DataType | d in EXCHANGES :: Shown(s.progress, d) + CompletedRecords(cfg, s.memory.processing.byFile, d)
  }

  /** One more record of this type has arrived at its batcher. */
  function Counted(s: State, d: DataType): State {
    s.(progress := s.progress[d := Shown(s.progress, d) + 1])
  }

  predicate Stopped(t: Task) {
    t.Skipped? || t.Done? || t.Failing?
  }

  /** All tasks returned Ok and no shutdown was requested. */
  predicate RunSucceeded(s: State) {
    !s.shutdown && forall f :: f in s.tasks ==> !s.tasks[f].Failing?
  }

  predicate HasAttempt(t: Task) {
    t.Active? || (t.Failing? && t.draining.Some?)
  }

  function AttemptOf(t: Task): Attempt
    requires HasAttempt(t)
  {
    if t.Active? then t.attempt else t.draining.value
  }

  function FailingTask(t: Task): Task {
    Failing(if t.Active? then Some(t.attempt) else None)
  }

  function WithAttempt(t: Task, a: Attempt): Task {
    if t.Active? then Active(a) else Failing(Some(a))
  }

  // ---- Steps: the state after the step, or None where the step is not possible ----

  function OutsideNext(s: State, step: OutsideStep): Option<State> {
    match step
    case Tick(elapsed) => Some(s.(clock := s.clock + elapsed))
    case Signal => if s.pc == Down then None else Some(s.(shutdown := true))
    case SetTrigger(force) => if s.pc == Down then None else Some(s.(trigger := Some(force)))
    case Crash => Some(s.(pc := Down, tasks := map[]))
  }

  /** A new downloader starts from the metadata file, or from nothing if that does not parse. */
  function LoadMetadata(s: State, readable: bool): State {
    s.(metadata := if readable then s.metaFile else map[])
  }

  /** Where a run holds a `?` that is not one of the failures modelled step by step. */
  predicate MayAbort(pc: Pc) {
    pc.Listing? || pc.Opening? || pc.Checking? || pc.Fetching? || pc.Fetched? || pc.Closing? || pc.Downloaded?
    || pc.Starting? || pc.Finalizing? || pc.Committing?
  }

  ghost function LoopNext(s: State, step: LoopStep): Option<State> {
    match step
    case Boot(force, readable) =>
      if s.pc != Down then None
      else Some(LoadMetadata(s, readable).(pc := Entering(force), initial := true, status := Idle, shutdown := false,
                                           trigger := None))
    case Timer(downloader, readable) =>
      if s.pc != Parked then None
      else if !downloader then Some(LoopTop(s, Broken))
      else Some(LoadMetadata(s, readable).(pc := Entering(false)))
    case TakeTrigger(downloader, readable) =>
      if s.pc != Parked || s.trigger == None then None
      else if !downloader then Some(LoopTop(s.(trigger := None), Broken))
      else Some(LoadMetadata(s, readable).(trigger := None, pc := Entering(s.trigger.value)))
    case SeeShutdown => if s.pc == Parked && s.shutdown then Some(s.(pc := Down)) else None
    case Enter =>
      if !s.pc.Entering? then None
      else if s.shutdown then Some(EndRun(s, OkFalse))
      else Some(s.(pc := Listing(s.pc.force), runStarted := s.clock, status := Running, progress := map[]))
    case ListEmpty => if s.pc.Listing? then Some(EndRun(s.(status := Succeeded), OkTrue)) else None
    case ListOk(readable) =>
      if !s.pc.Listing? then None
      else Some(Decided(OpenMarker(s, s.pc.force, readable)))
    case Abort =>
      if !MayAbort(s.pc) then None
      else Some(EndRun(s, Err))
  }

  ghost function DownloadNext(cfg: Config, s: State, step: DownloadStep): Option<State> {
    match step
    case StartDownloads(published, saved) =>
      if s.pc != Opening then None
      else Some(TrySave(s.(memory := StartDownload(s.memory, |cfg.files|, s.clock), published := published,
                           pc := Checking(0)), saved))
    case KeepFile(saved) =>
      if !s.pc.Checking? || s.pc.i >= |cfg.files| || NeedsDownload(cfg, s, cfg.files[s.pc.i]) then None
      else Some(TrySave(Trust(s, cfg.files[s.pc.i]).(pc := Checking(s.pc.i + 1)), saved))
    case FetchStart(saved) =>
      if !s.pc.Checking? || s.pc.i >= |cfg.files| || !NeedsDownload(cfg, s, cfg.files[s.pc.i]) then None
      else Some(TrySave(s.(memory := StartFileDownload(s.memory, cfg.files[s.pc.i], s.clock), pc := Fetching(s.pc.i)),
                        saved))
    case FetchPartial(left) =>
      if !s.pc.Fetching? || s.pc.i >= |cfg.files| then None
      else Some(s.(disk := if left.Some? then s.disk[cfg.files[s.pc.i] := left.value]
                   else s.disk - {cfg.files[s.pc.i]}))
    case FetchOk(bytes) =>
      if !s.pc.Fetching? || s.pc.i >= |cfg.files| then None
      else Some(s.(disk := s.disk[cfg.files[s.pc.i] := bytes],
                   metadata := s.metadata[cfg.files[s.pc.i] := cfg.hash(bytes)], pc := Fetched(s.pc.i)))
    case RejectFile(removed) =>
      if !s.pc.Fetched? || s.pc.i >= |cfg.files| || MatchesPublished(s, cfg.files[s.pc.i]) then None
      else Some(EndRun(s.(metadata := s.metadata - {cfg.files[s.pc.i]},
                          disk := if removed then s.disk - {cfg.files[s.pc.i]} else s.disk), Err))
    case SaveMetadata =>
      if !s.pc.Fetched? || s.pc.i >= |cfg.files| || !MatchesPublished(s, cfg.files[s.pc.i]) then None
      else Some(s.(metaFile := s.metadata))
    case AcceptFile(saved) =>
      if !s.pc.Fetched? || s.pc.i >= |cfg.files| || !MatchesPublished(s, cfg.files[s.pc.i]) then None
      else Some(TrySave(Trust(s, cfg.files[s.pc.i]).(pc := Checking(s.pc.i + 1)), saved))
    case FinishDownloads(saved) =>
      if s.pc != Checking(|cfg.files|) then None
      else Some(TrySave(s.(memory := CompleteDownload(s.memory, s.clock), pc := Closing), saved))
    case DownloadsOk => if s.pc != Closing then None else Some(s.(metaFile := s.metadata, pc := Downloaded))
  }

  ghost function TaskNext(cfg: Config, s: State, file: FileName, step: TaskStep): Option<State> {
    if file !in s.tasks || !TasksRun(s.pc) then None
    else if s.pc != Processing && !(s.tasks[file].Failing? && (step.Pipe? || step.Progress?)) then None
    else
      match step
      case Skip => if s.tasks[file] == Queued && s.shutdown then Some(SetTask(s, file, Skipped)) else None
      case Admit => if s.tasks[file] == Queued && !s.shutdown then Some(SetTask(s, file, Admitted)) else None
      case Start(saved) => StartNext(cfg, s, file, saved)
      case Pipe(action) => PipeNext(cfg, s, file, action)
      case Progress(saved) => ProgressNext(s, file, saved)
      case Announce => AnnounceNext(s, file)
      case Complete(saved) => CompleteNext(s, file, saved)
      case Fail =>
        if s.tasks[file] == Queued || s.tasks[file] == Admitted || s.tasks[file].Active?
        then Some(SetTask(s, file, FailingTask(s.tasks[file]))) else None
  }

  /** Tasks run until they are joined; the stages of a failed one may go on until the run returns. */
  predicate TasksRun(pc: Pc) {
    pc == Processing || pc == Finalizing(false)
  }

  function SetTask(s: State, file: FileName, task: Task): State {
    s.(tasks := s.tasks[file := task])
  }

  /** Each attempt has a number of its own, and reads the bytes that are on disk. */
  function StartNext(cfg: Config, s: State, file: FileName, saved: bool): Option<State>
    requires file in s.tasks
  {
    if s.tasks[file] != Admitted || file !in s.disk then None
    else
      Some(if saved then SetTask(Save(Started(s, file)), file, Active(NewAttempt(cfg, s, file)))
           else SetTask(Started(s, file), file, Failing(None)))
  }

  function Started(s: State, file: FileName): State {
    s.(memory := StartFileProcessing(s.memory, file, s.clock), nextAttempt := s.nextAttempt + 1)
  }

  function NewAttempt(cfg: Config, s: State, file: FileName): Attempt
    requires file in s.disk
  {
    Attempt(s.nextAttempt, s.clock, s.disk[file], Pipeline.Init(cfg.pipeline, cfg.parse(s.disk[file])))
  }

  /** One step of the file's pipeline; a confirmed batch is in the history from then on, and a
      record that reaches the batcher in the progress shown. */
  function PipeNext(cfg: Config, s: State, file: FileName, action: Pipeline.Step): Option<State>
    requires file in s.tasks
  {
    if !HasAttempt(s.tasks[file]) || !Pipeline.Enabled(cfg.pipeline, AttemptOf(s.tasks[file]).pipe, action) then None
    else
      var attempt := AttemptOf(s.tasks[file]);
      var moved := attempt.(pipe := Pipeline.Apply(cfg.pipeline, attempt.pipe, action));
      Some(SetTask(PipeEffect(cfg, s, file, attempt, action), file, WithAttempt(s.tasks[file], moved)))
  }

  /** What a pipeline's step does outside the pipeline. */
  function PipeEffect(cfg: Config, s: State, file: FileName, attempt: Attempt, action: Pipeline.Step): State {
    if action == Pipeline.Publisher(Pipeline.Confirm) then Log(s, Confirmed(attempt.id, attempt.pipe.inflight))
    else if action == Pipeline.Batcher(Pipeline.Receive) && file in cfg.kind then Counted(s, cfg.kind[file])
    else s
  }

  function Log(s: State, e: Event): State {
    s.(history := s.history + [e])
  }

  /** The batcher writes its counters into the marker, also while a failed task drains. */
  ghost function ProgressNext(s: State, file: FileName, saved: bool): Option<State>
    requires file in s.tasks
  {
    if !HasAttempt(s.tasks[file]) then None
    else
      var pipe := AttemptOf(s.tasks[file]).pipe;
      Some(TrySave(s.(memory := UpdateFileProgress(s.memory, file, pipe.received, pipe.received, pipe.batches)), saved))
  }

  /** file_complete is confirmed before the marker hears of it. */
  function AnnounceNext(s: State, file: FileName): Option<State>
    requires file in s.tasks
  {
    if !s.tasks[file].Active? || !Pipeline.Succeeded(s.tasks[file].attempt.pipe) then None
    else
      var a := s.tasks[file].attempt;
      Some(SetTask(Log(s, FileComplete(a.id, s.gen, file, a.start, a.src, a.pipe.parsed)), file, Announced(a)))
  }

  /** A save that fails here fails the task, but the marker in memory stays completed. */
  ghost function CompleteNext(s: State, file: FileName, saved: bool): Option<State>
    requires file in s.tasks
  {
    if !s.tasks[file].Announced? then None
    else
      var completed := s.(memory := CompleteFileProcessing(s.memory, file, s.tasks[file].attempt.pipe.parsed, s.clock));
      Some(TrySave(SetTask(completed, file, if saved then Done else Failing(None)), saved))
  }

  /** The message for one exchange: it carries when processing started, not when this run did. */
  function Announcement(s: State, k: nat): Event
    requires k < |EXCHANGES|
  {
    ExtractionComplete(EXCHANGES[k], s.gen,
      if s.memory.processing.startedAt.Some? then s.memory.processing.startedAt.value else s.runStarted,
      s.counts)
  }

  ghost function FinishNext(cfg: Config, s: State, step: FinishStep): Option<State> {
    match step
    case BeginProcessing => BeginNext(cfg, s)
    case SaveOk => SaveOkNext(cfg, s)
    case Spawn => SpawnNext(cfg, s)
    case Join => JoinNext(s)
    case Connect(ok) => ConnectNext(s, ok)
    case Publish(ok) => PublishNext(s, ok)
    case BroadcastEnd => BroadcastEndNext(s)
  }

  ghost function BeginNext(cfg: Config, s: State): Option<State> {
    if s.pc != Downloaded then None
    else if s.memory.processing.status == Pending then
      Some(s.(memory := StartProcessing(s.memory, |cfg.files|, s.clock), pc := Starting))
    else if s.memory.processing.status == InProgress then
      Some(s.(memory := ResumeProcessing(s.memory, |cfg.files|), progress := Rehydrated(cfg, s), pc := Starting))
    else Some(s.(pc := Ready))
  }

  /** The saves a run cannot do without. */
  ghost function SaveOkNext(cfg: Config, s: State): Option<State> {
    match s.pc
    case Starting => Some(Save(s).(pc := Ready))
    case Finalizing(success) =>
      if success then Some(Save(s).(counts := RecordCounts(cfg, s.memory), pc := Connecting))
        else Some(EndRun(Save(s).(status := Broken), OkFalse))
    case Committing => Some(EndRun(Save(s).(status := Succeeded), OkTrue))
    case _ => None
  }

  ghost function SpawnNext(cfg: Config, s: State): Option<State> {
    if s.pc != Ready then None
    else
      var pending := PendingFiles(s.memory, cfg.files);
      if pending != [] then Some(s.(tasks := map f | f in pending :: Queued, pc := Processing))
      else if s.memory.overall == Completed then Some(EndRun(s.(status := Succeeded), OkTrue))
      else Some(s.(memory := CompleteProcessing(s.memory, s.clock), tasks := map[], pc := Finalizing(true)))
  }

  ghost function JoinNext(s: State): Option<State> {
    if s.pc != Processing || (exists f :: f in s.tasks && !Stopped(s.tasks[f])) then None
    else if RunSucceeded(s)
      then Some(s.(memory := CompleteProcessing(s.memory, s.clock), tasks := map[], pc := Finalizing(true)))
    else Some(s.(pc := Finalizing(false)))
  }

  function ConnectNext(s: State, ok: bool): Option<State> {
    if s.pc != Connecting then None
    else if ok then Some(s.(pc := Broadcasting(0, false)))
    else Some(EndRun(s.(status := Broken), OkFalse))
  }

  function PublishNext(s: State, ok: bool): Option<State> {
    if !s.pc.Broadcasting? || s.pc.k >= |EXCHANGES| then None
    else if !ok then Some(s.(pc := Broadcasting(s.pc.k + 1, true)))
    else Some(Log(s, Announcement(s, s.pc.k)).(pc := Broadcasting(s.pc.k + 1, s.pc.failed)))
  }

  function BroadcastEndNext(s: State): Option<State> {
    if s.pc == Broadcasting(|EXCHANGES|, false) then Some(s.(memory := CompleteExtraction(s.memory), pc := Committing))
    else if s.pc == Broadcasting(|EXCHANGES|, true) then Some(EndRun(s.(status := Broken), OkFalse))
    else None
  }

  ghost function Next(cfg: Config, s: State, step: Step): Option<State> {
    match step
    case Outside(event) => OutsideNext(s, event)
    case Loop(loop) => LoopNext(s, loop)
    case Download(download) => DownloadNext(cfg, s, download)
    case File(file, task) => TaskNext(cfg, s, file, task)
    case Finish(finish) => FinishNext(cfg, s, finish)
  }

  /** Any files and any metadata may lie around at first; no marker does. */
  ghost predicate Init(s: State) {
    && s.durable == None && s.history == [] && s.nextGen == 0 && s.nextAttempt == 0
    && s.pc == Down && s.tasks == map[]
  }

  ghost function Run(cfg: Config, s: State, steps: seq<Step>): Option<State>
    decreases |steps|
  {
    if steps == [] then Some(s)
    else
      var next := Next(cfg, s, steps[0]);
      if next == None then None else Run(cfg, next.value, steps[1..])
  }
}
