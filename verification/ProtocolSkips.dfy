/** A run in which the rules skip a record: the progress shown is less than the count broadcast. */
module ProtocolSkips {
  import opened Json
  import opened Marker
  import opened Protocol
  import opened ProtocolTheorems
  import opened ProtocolCounts
  import opened ProtocolRun
  import Pipeline

  const FILE: FileName := "discogs_labels.xml.gz"
  const RECORD: DataMessage := DataMessage("1", Obj(map[]))

  /** One file with one record, which the rules skip. */
  function Skipping(): Config {
    Config([FILE], map[FILE := Labels], (bytes: Bytes) => 0, (bytes: Bytes) => [RECORD],
           Pipeline.Config(Some((m: DataMessage) => None), (m: DataMessage) => m, 1, 1))
  }

  lemma SkippingIsValid()
    ensures ValidConfig(Skipping()) && FILE in Skipping().files
    ensures Pipeline.Validated(Skipping().pipeline, [RECORD]) == []
  {
    assert Skipping().files[0] == FILE;
    assert [RECORD][1..] == [];
  }

  ghost predicate Nothing(s: State) {
    Init(s) && s.disk == map[] && s.metaFile == map[]
  }

  ghost predicate Opened(s: State) {
    s.pc == Opening && !s.shutdown && s.tasks == map[] && s.memory == New() && s.disk == map[]
  }

  lemma ThenTakes(cfg: Config, s: State, t: State, step: Step, u: State)
    requires Reaches(cfg, s, t) && Next(cfg, t, step) == Some(u)
    ensures Reaches(cfg, s, u)
  {
    Takes(cfg, t, step, u);
    ReachesOn(cfg, s, t, u);
  }

  lemma Opens(cfg: Config, s: State) returns (t: State)
    requires Nothing(s)
    ensures Reaches(cfg, s, t) && Opened(t)
  {
    var s1 := LoopNext(s, Boot(false, true)).value;
    var s2 := LoopNext(s1, Enter).value;
    t := LoopNext(s2, ListOk(true)).value;
    Takes(cfg, s, Loop(Boot(false, true)), s1);
    ThenTakes(cfg, s, s1, Loop(Enter), s2);
    ThenTakes(cfg, s, s2, Loop(ListOk(true)), t);
  }

  ghost predicate FileFetched(s: State) {
    && s.pc == Protocol.Fetched(0) && !s.shutdown && s.tasks == map[] && s.disk == map[FILE := []]
    && s.published == None && FILE in s.metadata && s.memory.processing == New().processing
      && s.memory.overall == Pending
  }

  lemma Fetches(s: State) returns (t: State)
    requires Opened(s)
    ensures Reaches(Skipping(), s, t) && FileFetched(t)
  {
    var cfg := Skipping();
    var s1 := DownloadNext(cfg, s, StartDownloads(None, false)).value;
    var s2 := DownloadNext(cfg, s1, FetchStart(false)).value;
    t := DownloadNext(cfg, s2, FetchOk([])).value;
    Takes(cfg, s, Download(StartDownloads(None, false)), s1);
    ThenTakes(cfg, s, s1, Download(FetchStart(false)), s2);
    ThenTakes(cfg, s, s2, Download(FetchOk([])), t);
  }

  ghost predicate HasFile(s: State, pc: Pc) {
    && s.pc == pc && !s.shutdown && s.tasks == map[] && s.disk == map[FILE := []]
    && s.memory.processing == New().processing && s.memory.overall == Pending
  }

  lemma Accepts(s: State) returns (t: State)
    requires FileFetched(s)
    ensures Reaches(Skipping(), s, t) && HasFile(t, Checking(1))
  {
    t := DownloadNext(Skipping(), s, AcceptFile(false)).value;
    Takes(Skipping(), s, Download(AcceptFile(false)), t);
  }

  lemma Downloads(s: State) returns (t: State)
    requires HasFile(s, Checking(1))
    ensures Reaches(Skipping(), s, t) && HasFile(t, Protocol.Downloaded)
  {
    var s1 := DownloadNext(Skipping(), s, FinishDownloads(false)).value;
    t := DownloadNext(Skipping(), s1, DownloadsOk).value;
    Takes(Skipping(), s, Download(FinishDownloads(false)), s1);
    ThenTakes(Skipping(), s, s1, Download(DownloadsOk), t);
  }

  ghost predicate CanSpawn(s: State) {
    && s.pc == Ready && !s.shutdown && s.tasks == map[] && s.disk == map[FILE := []]
    && s.memory.processing.byFile == map[]
  }

  lemma Begins(s: State) returns (t: State)
    requires HasFile(s, Protocol.Downloaded)
    ensures Reaches(Skipping(), s, t) && CanSpawn(t)
  {
    var s1 := s.(memory := StartProcessing(s.memory, |Skipping().files|, s.clock), pc := Starting);
    t := Save(s1).(pc := Ready);
    Takes(Skipping(), s, Finish(BeginProcessing), s1);
    ThenTakes(Skipping(), s, s1, Finish(SaveOk), t);
  }

  ghost predicate Spawned(s: State) {
    && s.pc == Processing && !s.shutdown && s.tasks == map[FILE := Queued] && s.disk == map[FILE := []]
    && s.memory.processing.byFile == map[]
  }

  lemma Spawns(s: State) returns (t: State)
    requires CanSpawn(s)
    ensures Reaches(Skipping(), s, t) && Spawned(t)
  {
    assert [FILE][1..] == [];
    assert PendingFiles(s.memory, [FILE]) == [FILE];
    t := SpawnNext(Skipping(), s).value;
    Takes(Skipping(), s, Finish(Spawn), t);
  }

  ghost predicate Working(s: State, pipe: Pipeline.State) {
    && s.pc == Processing && !s.shutdown
    && s.tasks.Keys == {FILE} && s.tasks[FILE].Active? && s.tasks[FILE].attempt.pipe == pipe
    && FILE in s.memory.processing.byFile
  }

  lemma Starts(s: State) returns (t: State)
    requires Spawned(s)
    ensures Reaches(Skipping(), s, t) && Working(t, Pipeline.Init(Skipping().pipeline, [RECORD]))
  {
    var s1 := SetTask(s, FILE, Admitted);
    t := StartNext(Skipping(), s1, FILE, true).value;
    Takes(Skipping(), s, File(FILE, Admit), s1);
    ThenTakes(Skipping(), s, s1, File(FILE, Start(true)), t);
  }

  lemma Pipes(s: State, pipe: Pipeline.State, action: Pipeline.Step) returns (t: State)
    requires Working(s, pipe) && Pipeline.Enabled(Skipping().pipeline, pipe, action)
    requires action != Pipeline.Publisher(Pipeline.Confirm) && action != Pipeline.Batcher(Pipeline.Receive)
    ensures Reaches(Skipping(), s, t) && Working(t, Pipeline.Apply(Skipping().pipeline, pipe, action))
  {
    t := PipeNext(Skipping(), s, FILE, action).value;
    Takes(Skipping(), s, File(FILE, Pipe(action)), t);
  }

  /** The parser hands the record over, and the rules drop it. */
  lemma Drops(s: State) returns (t: State, pipe: Pipeline.State)
    requires Working(s, Pipeline.Init(Skipping().pipeline, [RECORD]))
    ensures Reaches(Skipping(), s, t) && Working(t, pipe)
    ensures pipe == Pipeline.Init(Skipping().pipeline, []).(parsed := 1)
  {
    var p0 := Pipeline.Init(Skipping().pipeline, [RECORD]);
    var p1 := p0.(todo := [], parsed := 1, parseQueue := [RECORD]);
    pipe := p1.(parseQueue := []);
    var s1 := Pipes(s, p0, Pipeline.Parser(Pipeline.Send));
    t := Pipes(s1, p1, Pipeline.Validator(Pipeline.Receive));
    ReachesOn(Skipping(), s, s1, t);
  }

  lemma Drains(s: State, p0: Pipeline.State) returns (t: State, pipe: Pipeline.State)
    requires p0 == Pipeline.Init(Skipping().pipeline, []).(parsed := 1) && Working(s, p0)
    ensures Reaches(Skipping(), s, t) && Working(t, pipe) && Pipeline.Succeeded(pipe)
  {
    var p1 := p0.(parser := Pipeline.Clean);
    var p2 := p1.(validator := Pipeline.Clean);
    var p3 := p2.(normalizer := Pipeline.Clean);
    var p4 := p3.(batcher := Pipeline.Clean);
    pipe := p4.(publisher := Pipeline.Clean);
    var s1 := Pipes(s, p0, Pipeline.Parser(Pipeline.End));
    var s2 := Pipes(s1, p1, Pipeline.Validator(Pipeline.End));
    var s3 := Pipes(s2, p2, Pipeline.Normalizer(Pipeline.End));
    var s4 := Pipes(s3, p3, Pipeline.Batcher(Pipeline.End));
    t := Pipes(s4, p4, Pipeline.Publisher(Pipeline.End));
    ReachesOn(Skipping(), s, s1, s2);
    ReachesOn(Skipping(), s, s2, s3);
    ReachesOn(Skipping(), s, s3, s4);
    ReachesOn(Skipping(), s, s4, t);
  }

  lemma Completes(s: State, pipe: Pipeline.State) returns (t: State)
    requires Working(s, pipe) && Pipeline.Succeeded(pipe)
    ensures Reaches(Skipping(), s, t) && RunDone(t) && FILE in t.tasks
  {
    var s1 := AnnounceNext(s, FILE).value;
    t := CompleteNext(s1, FILE, true).value;
    Takes(Skipping(), s, File(FILE, Announce), s1);
    ThenTakes(Skipping(), s, s1, File(FILE, Complete(true)), t);
  }

  lemma ToProcessing(s: State) returns (t: State)
    requires Nothing(s)
    ensures Reaches(Skipping(), s, t) && Spawned(t)
  {
    var s1 := Opens(Skipping(), s);
    var s2 := Fetches(s1);
    ReachesOn(Skipping(), s, s1, s2);
    var s3 := Accepts(s2);
    ReachesOn(Skipping(), s, s2, s3);
    var s4 := Downloads(s3);
    ReachesOn(Skipping(), s, s3, s4);
    var s5 := Begins(s4);
    ReachesOn(Skipping(), s, s4, s5);
    t := Spawns(s5);
    ReachesOn(Skipping(), s, s5, t);
  }

  lemma ToDone(s: State) returns (t: State)
    requires Spawned(s)
    ensures Reaches(Skipping(), s, t) && RunDone(t) && FILE in t.tasks
  {
    var s1 := Starts(s);
    var s2, dropped := Drops(s1);
    ReachesOn(Skipping(), s, s1, s2);
    var s3, pipe := Drains(s2, dropped);
    ReachesOn(Skipping(), s, s2, s3);
    t := Completes(s3, pipe);
    ReachesOn(Skipping(), s, s3, t);
  }

  /** From an empty disk a run processes the file with success, and afterwards the progress shown is
      not the count in the marker, which is the one that is broadcast. */
  lemma ProgressIsShort(s: State) returns (t: State)
    requires Nothing(s)
    ensures Reachable(Skipping(), t) && RunDone(t) && FILE in t.memory.processing.byFile
    ensures Shown(t.progress, Labels) == 0 && t.memory.processing.byFile[FILE].records == 1
  {
    var spawned := ToProcessing(s);
    t := ToDone(spawned);
    ReachesOn(Skipping(), s, spawned, t);
    SkippingIsValid();
    assert Reachable(Skipping(), s) by {
      assert Run(Skipping(), s, []) == Some(s);
    }
    ReachableOn(Skipping(), s, t);
    CountsSurviveResume(Skipping(), t, FILE);
  }
}
