/** No state is a dead end: from each one a run leads to a finalized marker on disk. */
module ProtocolRun {
  import opened Json
  import opened MarkerFacts
  import opened Protocol
  import opened ProtocolInv
  import opened ProtocolTheorems
  import opened ProtocolCalm

  ghost predicate Reaches(cfg: Config, s: State, t: State) {
    exists steps: seq<Step> :: Run(cfg, s, steps) == Some(t)
  }

  lemma {:induction false} RunAppend(cfg: Config, s: State, a: seq<Step>, b: seq<Step>)
    requires Run(cfg, s, a).Some?
    ensures Run(cfg, s, a + b) == Run(cfg, Run(cfg, s, a).value, b)
    decreases |a|
  {
    if a == [] {
      assert a + b == b;
    } else {
      assert (a + b)[1..] == a[1..] + b;
      RunAppend(cfg, Next(cfg, s, a[0]).value, a[1..], b);
    }
  }

  lemma ReachesOn(cfg: Config, s: State, t: State, u: State)
    requires Reaches(cfg, s, t) && Reaches(cfg, t, u)
    ensures Reaches(cfg, s, u)
  {
    var a: seq<Step> :| Run(cfg, s, a) == Some(t);
    var b: seq<Step> :| Run(cfg, t, b) == Some(u);
    RunAppend(cfg, s, a, b);
    assert Run(cfg, s, a + b) == Some(u);
  }

  lemma Takes(cfg: Config, s: State, step: Step, t: State)
    requires Next(cfg, s, step) == Some(t)
    ensures Reaches(cfg, s, t)
  {
    assert [step][1..] == [];
    assert Run(cfg, s, [step]) == Some(t);
  }

  /** One step on the way; the invariant goes with it. */
  lemma Goes(cfg: Config, s: State, step: Step, t: State)
    requires ValidConfig(cfg) && Inv(cfg, s) && Next(cfg, s, step) == Some(t)
    ensures Inv(cfg, t) && Reaches(cfg, s, t)
  {
    StepKeeps(cfg, s, step);
    Takes(cfg, s, step, t);
  }

  // ---- A new session ----

  ghost predicate At(cfg: Config, s: State, pc: Pc) {
    Inv(cfg, s) && s.pc == pc && !s.shutdown
  }

  /** Whatever the process is doing, it can crash and be started again. */
  lemma Restarts(cfg: Config, s: State) returns (t: State)
    requires ValidConfig(cfg) && Inv(cfg, s)
    ensures Reaches(cfg, s, t) && At(cfg, t, Entering(false))
  {
    var s1 := s.(pc := Down, tasks := map[]);
    Goes(cfg, s, Outside(Crash), s1);
    t := LoopNext(s1, Boot(false, true)).value;
    Goes(cfg, s1, Loop(Boot(false, true)), t);
    ReachesOn(cfg, s, s1, t);
  }

  lemma Enters(cfg: Config, s: State) returns (t: State)
    requires ValidConfig(cfg) && At(cfg, s, Entering(false))
    ensures Reaches(cfg, s, t) && At(cfg, t, Listing(false))
  {
    t := LoopNext(s, Enter).value;
    Goes(cfg, s, Loop(Enter), t);
  }

  /** A run of the new session, if there is anything left to do. */
  lemma BecomesGoing(cfg: Config, s: State)
    requires At(cfg, s, Listing(false))
    ensures Going(cfg, s)
  {
  }

  // ---- From every state ----

  lemma Recovers(cfg: Config, s: State) returns (t: State)
    requires ValidConfig(cfg) && cfg.pipeline.queueSize >= 1 && Inv(cfg, s)
    ensures Reaches(cfg, s, t) && Committed(t) && AllCompleted(t.durable.value, cfg.files)
  {
    var started := Restarts(cfg, s);
    var listing := Enters(cfg, started);
    ReachesOn(cfg, s, started, listing);
    BecomesGoing(cfg, listing);
    var choose := ASchedule(cfg);
    var steps, end := EveryScheduleCommits(cfg, choose, listing);
    t := end;
    ReachesOn(cfg, s, listing, t);
  }

  /** No dead ends: from every state that failures, shutdowns and crashes can lead to, some run
      ends with a finalized marker on disk and every file of the version completed, whatever the
      files hold and whatever the rules skip. */
  lemma NoDeadEnds(cfg: Config, s: State)
    requires ValidConfig(cfg) && cfg.pipeline.queueSize >= 1 && Reachable(cfg, s)
    ensures exists t: State ::
              Reaches(cfg, s, t) && Reachable(cfg, t) && Committed(t) && AllCompleted(t.durable.value, cfg.files)
  {
    ReachableInv(cfg, s);
    var t := Recovers(cfg, s);
    ReachableOn(cfg, s, t);
  }

  lemma ReachableOn(cfg: Config, s: State, t: State)
    requires Reachable(cfg, s) && Reaches(cfg, s, t)
    ensures Reachable(cfg, t)
  {
    var s0: State, steps: seq<Step> :| Init(s0) && Run(cfg, s0, steps) == Some(s);
    assert Reaches(cfg, s0, s);
    ReachesOn(cfg, s0, s, t);
    var all: seq<Step> :| Run(cfg, s0, all) == Some(t);
  }
}
