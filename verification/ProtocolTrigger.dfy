/** An API trigger is stored until one wait of the periodic loop takes it. */
module ProtocolTrigger {
  import opened Json
  import opened Marker
  import opened Protocol
  import Pipeline

  lemma EndRunStores(s: State, outcome: Outcome)
    ensures EndRun(s, outcome).trigger == s.trigger
  {
  }

  lemma DecidedStores(s: State)
    ensures Decided(s).trigger == s.trigger
  {
    EndRunStores(s.(status := Succeeded), OkTrue);
  }

  lemma OpenStores(s: State, force: bool, readable: bool)
    ensures OpenMarker(s, force, readable).trigger == s.trigger
  {
    NewStores(s, Forced);
    NewStores(s, Absent);
    NewStores(s, Unreadable);
  }

  lemma NewStores(s: State, origin: Origin)
    ensures NewMarker(s, origin).trigger == s.trigger
  {
  }

  lemma LeaveStores(s: State, step: LoopStep)
    requires LoopNext(s, step).Some? && (step.SeeShutdown? || step.Enter? || step.ListEmpty? || step.Abort?)
    ensures LoopNext(s, step).value.trigger == s.trigger
  {
    EndRunStores(s, OkFalse);
    EndRunStores(s, Err);
    EndRunStores(s.(status := Succeeded), OkTrue);
  }

  lemma TimerStores(s: State, downloader: bool, readable: bool)
    requires LoopNext(s, Timer(downloader, readable)).Some?
    ensures LoopNext(s, Timer(downloader, readable)).value.trigger == s.trigger
  {
  }

  lemma DownloadStores(cfg: Config, s: State, step: DownloadStep)
    requires DownloadNext(cfg, s, step).Some?
    ensures DownloadNext(cfg, s, step).value.trigger == s.trigger
  {
  }

  lemma PipeStores(cfg: Config, s: State, file: FileName, action: Pipeline.Step)
    requires file in s.tasks && PipeNext(cfg, s, file, action).Some?
    ensures PipeNext(cfg, s, file, action).value.trigger == s.trigger
  {
  }

  lemma StartStores(cfg: Config, s: State, file: FileName, saved: bool)
    requires file in s.tasks && StartNext(cfg, s, file, saved).Some?
    ensures StartNext(cfg, s, file, saved).value.trigger == s.trigger
  {
  }

  lemma ProgressStores(s: State, file: FileName, saved: bool)
    requires file in s.tasks && ProgressNext(s, file, saved).Some?
    ensures ProgressNext(s, file, saved).value.trigger == s.trigger
  {
  }

  lemma CompleteStores(s: State, file: FileName, saved: bool)
    requires file in s.tasks && CompleteNext(s, file, saved).Some?
    ensures CompleteNext(s, file, saved).value.trigger == s.trigger
  {
  }

  lemma TaskStores(cfg: Config, s: State, file: FileName, step: TaskStep)
    requires TaskNext(cfg, s, file, step).Some?
    ensures TaskNext(cfg, s, file, step).value.trigger == s.trigger
  {
    match step
    case Start(saved) => StartStores(cfg, s, file, saved);
    case Pipe(action) => PipeStores(cfg, s, file, action);
    case Progress(saved) => ProgressStores(s, file, saved);
    case Complete(saved) => CompleteStores(s, file, saved);
    case _ =>
  }

  lemma RunSaveStores(cfg: Config, s: State)
    requires s.pc.Starting? || s.pc == Finalizing(true)
    ensures SaveOkNext(cfg, s).Some? && SaveOkNext(cfg, s).value.trigger == s.trigger
  {
  }

  lemma LastSaveStores(cfg: Config, s: State)
    requires s.pc.Committing? || s.pc == Finalizing(false)
    ensures SaveOkNext(cfg, s).Some? && SaveOkNext(cfg, s).value.trigger == s.trigger
  {
    EndRunStores(Save(s).(status := Broken), OkFalse);
    EndRunStores(Save(s).(status := Succeeded), OkTrue);
  }

  lemma SaveStores(cfg: Config, s: State)
    requires SaveOkNext(cfg, s).Some?
    ensures SaveOkNext(cfg, s).value.trigger == s.trigger
  {
    if s.pc.Starting? || s.pc == Finalizing(true) {
      RunSaveStores(cfg, s);
    } else {
      LastSaveStores(cfg, s);
    }
  }

  lemma BeginStores(cfg: Config, s: State)
    requires BeginNext(cfg, s).Some?
    ensures BeginNext(cfg, s).value.trigger == s.trigger
  {
  }

  lemma SpawnStores(cfg: Config, s: State)
    requires s.pc == Ready
    ensures SpawnNext(cfg, s).Some? && SpawnNext(cfg, s).value.trigger == s.trigger
  {
    if PendingFiles(s.memory, cfg.files) == [] && s.memory.overall == Completed {
      EndRunStores(s.(status := Succeeded), OkTrue);
    }
  }

  lemma JoinStores(s: State)
    requires JoinNext(s).Some?
    ensures JoinNext(s).value.trigger == s.trigger
  {
  }

  lemma ConnectStores(s: State, ok: bool)
    requires ConnectNext(s, ok).Some?
    ensures ConnectNext(s, ok).value.trigger == s.trigger
  {
    EndRunStores(s.(status := Broken), OkFalse);
  }

  lemma PublishStores(s: State, ok: bool)
    requires PublishNext(s, ok).Some?
    ensures PublishNext(s, ok).value.trigger == s.trigger
  {
  }

  lemma BroadcastEndStores(s: State)
    requires BroadcastEndNext(s).Some?
    ensures BroadcastEndNext(s).value.trigger == s.trigger
  {
    EndRunStores(s.(status := Broken), OkFalse);
  }

  lemma FinishStores(cfg: Config, s: State, step: FinishStep)
    requires FinishNext(cfg, s, step).Some?
    ensures FinishNext(cfg, s, step).value.trigger == s.trigger
  {
    match step
    case BeginProcessing => BeginStores(cfg, s);
    case SaveOk => SaveStores(cfg, s);
    case Spawn => SpawnStores(cfg, s);
    case Join => JoinStores(s);
    case Connect(ok) => ConnectStores(s, ok);
    case Publish(ok) => PublishStores(s, ok);
    case BroadcastEnd => BroadcastEndStores(s);
  }

  lemma LoopStores(s: State, step: LoopStep)
    requires LoopNext(s, step).Some? && !step.Boot? && !step.TakeTrigger?
    ensures LoopNext(s, step).value.trigger == s.trigger
  {
    match step
    case Timer(downloader, readable) => TimerStores(s, downloader, readable);
    case ListOk(readable) =>
      OpenStores(s, s.pc.force, readable);
      DecidedStores(OpenMarker(s, s.pc.force, readable));
    case _ => LeaveStores(s, step);
  }

  lemma OutsideSets(s: State, step: OutsideStep)
    requires OutsideNext(s, step).Some?
    ensures OutsideNext(s, step).value.trigger == if step.SetTrigger? then Some(step.force) else s.trigger
  {
  }

  lemma TakesTrigger(s: State, downloader: bool, readable: bool)
    requires s.pc == Parked && s.trigger.Some?
    ensures LoopNext(s, TakeTrigger(downloader, readable)).Some?
    ensures var s' := LoopNext(s, TakeTrigger(downloader, readable)).value;
            && s'.trigger == None
            && (if downloader then s'.pc == Entering(s.trigger.value)
                else s'.status == Broken && s'.pc == (if s.shutdown then Down else Parked))
  {
  }

  // ---- One step ----

  predicate IsSet(step: Step) {
    step.Outside? && step.event.SetTrigger?
  }

  predicate IsTake(step: Step) {
    step.Loop? && step.loop.TakeTrigger?
  }

  predicate IsBoot(step: Step) {
    step.Loop? && step.loop.Boot?
  }

  /** The slot after a step: written by an API trigger, emptied by the wait that takes it and by a
      new process. */
  function Stored(trigger: Option<bool>, step: Step): Option<bool> {
    if IsSet(step) then Some(step.event.force) else if IsTake(step) || IsBoot(step) then None else trigger
  }

  lemma BootEmpties(s: State, force: bool, readable: bool)
    requires s.pc == Down
    ensures LoopNext(s, Boot(force, readable)).Some? && LoopNext(s, Boot(force, readable)).value.trigger == None
  {
  }

  lemma StepStores(cfg: Config, s: State, step: Step)
    requires Next(cfg, s, step).Some?
    ensures Next(cfg, s, step).value.trigger == Stored(s.trigger, step)
  {
    match step
    case Outside(event) => OutsideSets(s, event);
    case Loop(loop) =>
      if loop.TakeTrigger? {
        TakesTrigger(s, loop.downloader, loop.metaReadable);
      } else if loop.Boot? {
        BootEmpties(s, loop.bootForce, loop.metaReadable);
      } else {
        LoopStores(s, loop);
      }
    case Download(download) => DownloadStores(cfg, s, download);
    case File(file, task) => TaskStores(cfg, s, file, task);
    case Finish(finish) => FinishStores(cfg, s, finish);
  }

  /** A stored trigger is only ever replaced by a newer one, lost with the process, or taken by
      one wait of the loop; and the wait that takes it enters a run with its force flag, or sets
      the status to Failed and waits again. */
  lemma TriggerIsTakenOnce(cfg: Config, s: State, step: Step)
    requires Next(cfg, s, step).Some? && s.trigger.Some? && Next(cfg, s, step).value.trigger != s.trigger
    ensures var s' := Next(cfg, s, step).value;
            || (IsSet(step) && s'.trigger == Some(step.event.force))
            || (IsBoot(step) && s.pc == Down)
            || (IsTake(step) && s.pc == Parked && s'.trigger == None
                && (if step.loop.downloader then s'.pc == Entering(s.trigger.value)
                    else s'.status == Broken && s'.pc == (if s.shutdown then Down else Parked)))
  {
    StepStores(cfg, s, step);
    if IsTake(step) {
      TakesTrigger(s, step.loop.downloader, step.loop.metaReadable);
    }
  }

  // ---- Whole runs ----

  function Pending(trigger: Option<bool>, steps: seq<Step>): Option<bool>
    decreases |steps|
  {
    if steps == [] then trigger else Pending(Stored(trigger, steps[0]), steps[1..])
  }

  lemma {:induction false} RunStores(cfg: Config, s: State, steps: seq<Step>)
    requires Run(cfg, s, steps).Some?
    ensures Run(cfg, s, steps).value.trigger == Pending(s.trigger, steps)
    decreases |steps|
  {
    if steps != [] {
      StepStores(cfg, s, steps[0]);
      RunStores(cfg, Next(cfg, s, steps[0]).value, steps[1..]);
    }
  }

  /** At position j this flag was set, and nothing has touched the slot since. */
  ghost predicate LastSet(steps: seq<Step>, j: int, flag: bool) {
    && 0 <= j < |steps| && IsSet(steps[j]) && steps[j].event.force == flag
    && forall k :: j < k < |steps| ==> Untouching(steps[k])
  }

  predicate Untouching(step: Step) {
    !IsSet(step) && !IsTake(step) && !IsBoot(step)
  }

  /** What is pending is the last flag set, if it is not the one that was there before. */
  lemma {:induction false} PendingIsLast(trigger: Option<bool>, steps: seq<Step>) returns (j: int)
    requires Pending(trigger, steps).Some?
    ensures LastSet(steps, j, Pending(trigger, steps).value)
            || (trigger == Pending(trigger, steps) && forall k :: 0 <= k < |steps| ==> Untouching(steps[k]))
    decreases |steps|
  {
    if steps == [] {
      j := -1;
    } else {
      var flag := Pending(trigger, steps).value;
      var later := PendingIsLast(Stored(trigger, steps[0]), steps[1..]);
      j := if LastSet(steps[1..], later, flag) then later + 1 else 0;
      forall k | 0 < k < |steps| && (j == 0 || j < k) ensures Untouching(steps[k]) {
        assert steps[k] == steps[1..][k - 1];
      }
    }
  }

  lemma {:induction false} RunPrefix(cfg: Config, s: State, steps: seq<Step>, i: nat)
    requires Run(cfg, s, steps).Some? && i < |steps|
    ensures Run(cfg, s, steps[..i]).Some?
    ensures Run(cfg, s, steps[..i + 1]) == Next(cfg, Run(cfg, s, steps[..i]).value, steps[i]) != None
    decreases i
  {
    var next := Next(cfg, s, steps[0]).value;
    assert steps[..i + 1][1..] == steps[1..][..i];
    if i == 0 {
      assert steps[..0] == [] && steps[1..][..0] == [];
    } else {
      assert steps[..i][1..] == steps[1..][..i - 1];
      RunPrefix(cfg, next, steps[1..], i - 1);
    }
  }

  /** Every take has its set: in a run that starts with no trigger stored, the wait that takes one
      takes the flag that was set last, with no other set, take or start of the process between;
      and if a downloader can be built it enters a run with that flag. */
  lemma EachTakeHasItsSet(cfg: Config, s: State, steps: seq<Step>, i: nat) returns (j: nat)
    requires Run(cfg, s, steps).Some? && s.trigger == None && i < |steps| && IsTake(steps[i])
    ensures j < i && IsSet(steps[j]) && LastSet(steps[..i], j, steps[j].event.force)
    ensures Run(cfg, s, steps[..i + 1]).Some?
    ensures steps[i].loop.downloader ==> Run(cfg, s, steps[..i + 1]).value.pc == Entering(steps[j].event.force)
  {
    RunPrefix(cfg, s, steps, i);
    RunStores(cfg, s, steps[..i]);
    var before := Run(cfg, s, steps[..i]).value;
    TakeNeedsTrigger(cfg, before, steps[i]);
    TakesTrigger(before, steps[i].loop.downloader, steps[i].loop.metaReadable);
    j := PendingIsLast(s.trigger, steps[..i]);
  }

  function Sets(steps: seq<Step>): nat {
    if steps == [] then 0 else (if IsSet(steps[0]) then 1 else 0) + Sets(steps[1..])
  }

  function Takes(steps: seq<Step>): nat {
    if steps == [] then 0 else (if IsTake(steps[0]) then 1 else 0) + Takes(steps[1..])
  }

  function Held(trigger: Option<bool>): nat {
    if trigger.Some? then 1 else 0
  }

  /** No trigger is taken twice: over any run, what was taken and what is still stored is no more
      than what was set and what was stored before. */
  lemma {:induction false} NoMoreTakesThanSets(cfg: Config, s: State, steps: seq<Step>)
    requires Run(cfg, s, steps).Some?
    ensures Takes(steps) + Held(Run(cfg, s, steps).value.trigger) <= Sets(steps) + Held(s.trigger)
    decreases |steps|
  {
    if steps != [] {
      StepStores(cfg, s, steps[0]);
      if IsTake(steps[0]) {
        TakeNeedsTrigger(cfg, s, steps[0]);
      }
      NoMoreTakesThanSets(cfg, Next(cfg, s, steps[0]).value, steps[1..]);
    }
  }

  lemma TakeNeedsTrigger(cfg: Config, s: State, step: Step)
    requires Next(cfg, s, step).Some? && IsTake(step)
    ensures s.pc == Parked && s.trigger.Some?
  {
  }
}
