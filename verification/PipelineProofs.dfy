/** What every interleaving of the pipeline keeps, and that no interleaving can hang. */
module PipelineProofs {
  import opened Json
  import opened Pipeline

  // ---- Algebra of the reference functions ----

  lemma {:induction false} FlatFirst<T>(batches: seq<seq<T>>)
    requires batches != []
    ensures Flat(batches) == batches[0] + Flat(batches[1..])
  {
    var k := |batches| - 1;
    if k > 0 {
      var front, last := batches[..k], batches[k];
      FlatFirst(front);
      assert batches[1..][..k - 1] == front[1..] && batches[1..][k - 1] == last;
      Associates(batches[0], Flat(front[1..]), last);
    } else {
      assert batches[..0] == [] && batches[1..] == [];
    }
  }

  lemma Associates<T>(a: seq<T>, b: seq<T>, c: seq<T>)
    ensures a + (b + c) == (a + b) + c
  {
  }

  lemma FlatLast<T>(batches: seq<seq<T>>, last: seq<T>)
    ensures Flat(batches + [last]) == Flat(batches) + last
  {
    assert (batches + [last])[..|batches|] == batches;
  }

  // ---- Each step keeps the invariant ----

  lemma InitKeeps(cfg: Config, records: seq<DataMessage>)
    ensures Inv(cfg, Init(cfg, records), records)
  {
    var s := Init(cfg, records);
    assert s.parseQueue + s.todo == records;
    assert s.normalizeQueue + Held(s.validated) + Validated(cfg, s.parseQueue + s.todo) == Validated(cfg, records);
    assert Downstream(s) == [];
    assert Upstream(cfg, s) == Expected(cfg, records);
  }

  /** The part of the pipeline that has not been normalized yet. */
  function Raw(cfg: Config, s: State): seq<DataMessage> {
    s.normalizeQueue + Held(s.validated) + Validated(cfg, s.parseQueue + s.todo)
  }

  lemma NormalizedFirst(cfg: Config, first: DataMessage, rest: seq<DataMessage>)
    ensures Normalized(cfg, [first] + rest) == [cfg.normalize(first)] + Normalized(cfg, rest)
  {
  }

  lemma ParserSends(cfg: Config, s: State)
    requires CleanOk(cfg, s) && ParserEnabled(cfg, s, Send)
    ensures Raw(cfg, ParserStep(cfg, s, Send)) == Raw(cfg, s)
  {
    var s' := ParserStep(cfg, s, Send);
    assert s.todo == [s.todo[0]] + s.todo[1..];
    if cfg.validate.Some? {
      assert s'.parseQueue + s'.todo == s.parseQueue + s.todo;
    } else {
      assert s'.parseQueue + s'.todo == s.todo[1..];
      assert s.parseQueue + s.todo == s.todo;
      assert Validated(cfg, s.todo) == [s.todo[0]] + Validated(cfg, s.todo[1..]);
    }
  }

  lemma ValidatorReceives(cfg: Config, s: State)
    requires CleanOk(cfg, s) && s.validator == Running && ValidatorEnabled(cfg, s, Receive)
    ensures Raw(cfg, ValidatorStep(cfg, s, Receive)) == Raw(cfg, s)
  {
    var s' := ValidatorStep(cfg, s, Receive);
    var input := s.parseQueue + s.todo;
    assert input[1..] == s'.parseQueue + s'.todo;
    assert Validated(cfg, input) == Held(s'.validated) + Validated(cfg, input[1..]);
  }

  lemma ValidatorSends(cfg: Config, s: State)
    requires ValidatorEnabled(cfg, s, Send)
    ensures Raw(cfg, ValidatorStep(cfg, s, Send)) == Raw(cfg, s)
  {
    var s' := ValidatorStep(cfg, s, Send);
    assert s'.normalizeQueue + Held(s'.validated) == s.normalizeQueue + Held(s.validated);
  }

  lemma NormalizerReceives(cfg: Config, s: State)
    requires NormalizerEnabled(cfg, s, Receive)
    ensures Upstream(cfg, NormalizerStep(cfg, s, Receive)) == Upstream(cfg, s)
  {
    var s' := NormalizerStep(cfg, s, Receive);
    assert Raw(cfg, s) == [s.normalizeQueue[0]] + Raw(cfg, s');
    NormalizedFirst(cfg, s.normalizeQueue[0], Raw(cfg, s'));
    assert Upstream(cfg, s) == s.batchQueue + Normalized(cfg, Raw(cfg, s));
    assert Upstream(cfg, s') == s.batchQueue + [cfg.normalize(s.normalizeQueue[0])] + Normalized(cfg, Raw(cfg, s'));
  }

  lemma NormalizerSends(cfg: Config, s: State)
    requires NormalizerEnabled(cfg, s, Send)
    ensures Upstream(cfg, NormalizerStep(cfg, s, Send)) == Upstream(cfg, s)
  {
    var s' := NormalizerStep(cfg, s, Send);
    assert s'.batchQueue + Held(s'.normalized) == s.batchQueue + Held(s.normalized);
  }

  /** Receiving into the batch moves one message across the border. */
  lemma BatcherReceives(cfg: Config, s: State)
    requires BatcherEnabled(s, Receive)
    ensures var s' := BatcherStep(cfg, s, Receive);
            && Downstream(s') == Downstream(s) + [s.batchQueue[0]]
            && Upstream(cfg, s) == [s.batchQueue[0]] + Upstream(cfg, s')
  {
    var s' := BatcherStep(cfg, s, Receive);
    assert s'.sending + s'.batch == s.sending + s.batch + [s.batchQueue[0]];
    assert Downstream(s') == (Flat(s.confirmed) + s.inflight + Flat(s.publishQueue)) + (s'.sending + s'.batch);
    assert s.batchQueue == [s.batchQueue[0]] + s'.batchQueue;
  }

  /** What a step does to the messages on either side of the border before the batcher: nothing
      is lost while no stage fails. */
  ghost predicate Carried(cfg: Config, s: State, s': State) {
    && Downstream(s') + Upstream(cfg, s') == Downstream(s) + Upstream(cfg, s)
    && |Downstream(s')| - |Downstream(s)| == s'.received - s.received
  }

  lemma ParserCarries(cfg: Config, s: State, action: Action)
    requires CleanOk(cfg, s) && ParserEnabled(cfg, s, action)
    ensures Carried(cfg, s, ParserStep(cfg, s, action))
  {
    if action == Send {
      ParserSends(cfg, s);
    }
  }

  lemma ValidatorCarries(cfg: Config, s: State, action: Action)
    requires CleanOk(cfg, s) && s.validator == Running && ValidatorEnabled(cfg, s, action) && action != Fail
             && action != Break
    ensures Carried(cfg, s, ValidatorStep(cfg, s, action))
  {
    if action == Receive {
      ValidatorReceives(cfg, s);
    } else if action == Send {
      ValidatorSends(cfg, s);
    }
  }

  lemma NormalizerCarries(cfg: Config, s: State, action: Action)
    requires NormalizerEnabled(cfg, s, action) && action != Fail && action != Break
    ensures Carried(cfg, s, NormalizerStep(cfg, s, action))
  {
    if action == Receive {
      NormalizerReceives(cfg, s);
    } else if action == Send {
      NormalizerSends(cfg, s);
    }
  }

  lemma BatcherCarries(cfg: Config, s: State, action: Action)
    requires BatcherEnabled(s, action) && action != Fail && action != Break
    ensures Carried(cfg, s, BatcherStep(cfg, s, action))
  {
    if action == Receive {
      BatcherTakes(cfg, s);
    } else if action == Send {
      FlatLast(s.publishQueue, s.sending);
    }
  }

  lemma BatcherTakes(cfg: Config, s: State)
    requires BatcherEnabled(s, Receive)
    ensures Carried(cfg, s, BatcherStep(cfg, s, Receive))
  {
    BatcherReceives(cfg, s);
    var s' := BatcherStep(cfg, s, Receive);
    Regroup(Downstream(s), s.batchQueue[0], Upstream(cfg, s'));
  }

  lemma Regroup<T>(a: seq<T>, x: T, b: seq<T>)
    ensures a + ([x] + b) == (a + [x]) + b
  {
  }

  lemma PublisherCarries(cfg: Config, s: State, action: Action)
    requires PublisherEnabled(s, action) && action != Fail
    ensures Carried(cfg, s, PublisherStep(s, action))
  {
    if action == Receive {
      PublisherReceives(s);
    } else if action == Confirm {
      FlatLast(s.confirmed, s.inflight);
    }
  }

  lemma PublisherReceives(s: State)
    requires PublisherEnabled(s, Receive)
    ensures Downstream(PublisherStep(s, Receive)) == Downstream(s)
  {
    FlatFirst(s.publishQueue);
    var first, rest := s.publishQueue[0], Flat(s.publishQueue[1..]);
    Associates(Flat(s.confirmed), first, rest);
    assert s.inflight == [] && Flat(s.confirmed) + s.inflight == Flat(s.confirmed);
  }

  /** The parts of the invariant that do not mention the records. */
  ghost predicate Shaped(cfg: Config, s: State) {
    SizesOk(cfg, s) && CleanOk(cfg, s) && BreaksOk(cfg, s)
  }

  /** Work left: every message counts for the hops still ahead of it, every task for one. */
  function Work(s: State): nat {
    UpstreamWork(s) + BatchWork(s) + PublishWork(s) + Tasks(s)
  }

  function UpstreamWork(s: State): nat {
    10 * |s.todo| + 9 * |s.parseQueue| + 8 * |Held(s.validated)| + 7 * |s.normalizeQueue| + 6 * |Held(s.normalized)|
  }

  function BatchWork(s: State): nat {
    5 * |s.batchQueue| + 4 * |s.batch| + 3 * |s.sending|
  }

  function PublishWork(s: State): nat {
    2 * |Flat(s.publishQueue)| + |s.inflight|
  }

  function Tasks(s: State): nat {
    Alive(s.parser) + Alive(s.validator) + Alive(s.normalizer) + Alive(s.batcher) + Alive(s.publisher)
  }

  function Alive(e: Exit): nat { if e == Running then 1 else 0 }

  lemma ParserKeeps(cfg: Config, s: State, action: Action)
    requires Shaped(cfg, s) && s.parser == Running && ParserEnabled(cfg, s, action)
    ensures Shaped(cfg, ParserStep(cfg, s, action)) && Work(ParserStep(cfg, s, action)) < Work(s)
  {
  }

  lemma ValidatorKeeps(cfg: Config, s: State, action: Action)
    requires Shaped(cfg, s) && s.validator == Running && ValidatorEnabled(cfg, s, action)
    ensures Shaped(cfg, ValidatorStep(cfg, s, action)) && Work(ValidatorStep(cfg, s, action)) < Work(s)
  {
  }

  lemma NormalizerKeeps(cfg: Config, s: State, action: Action)
    requires Shaped(cfg, s) && s.normalizer == Running && NormalizerEnabled(cfg, s, action)
    ensures Shaped(cfg, NormalizerStep(cfg, s, action)) && Work(NormalizerStep(cfg, s, action)) < Work(s)
  {
  }

  lemma BatcherWorks(cfg: Config, s: State, action: Action)
    requires s.batcher == Running && BatcherEnabled(s, action)
    ensures Work(BatcherStep(cfg, s, action)) < Work(s)
  {
    var s' := BatcherStep(cfg, s, action);
    assert UpstreamWork(s') == UpstreamWork(s);
    if action == Send {
      FlatLast(s.publishQueue, s.sending);
      assert PublishWork(s') == PublishWork(s) + 2 * |s.sending|;
    } else {
      assert PublishWork(s') == PublishWork(s);
    }
  }

  lemma BatcherFills(cfg: Config, s: State)
    requires Shaped(cfg, s) && s.batcher == Running && BatcherEnabled(s, Receive)
    ensures Shaped(cfg, BatcherStep(cfg, s, Receive))
  {
    BatcherFillSizes(cfg, s);
    BatcherFillEnds(cfg, s);
  }

  lemma BatcherFillSizes(cfg: Config, s: State)
    requires SizesOk(cfg, s) && BatcherEnabled(s, Receive)
    ensures SizesOk(cfg, BatcherStep(cfg, s, Receive))
  {
    var s' := BatcherStep(cfg, s, Receive);
    assert s'.confirmed == s.confirmed && s'.publishQueue == s.publishQueue && s'.inflight == s.inflight;
    assert s'.batch == [] ==> BatchOk(cfg, s'.sending);
  }

  lemma BatcherFillEnds(cfg: Config, s: State)
    requires CleanOk(cfg, s) && BreaksOk(cfg, s) && s.batcher == Running && BatcherEnabled(s, Receive)
    ensures CleanOk(cfg, BatcherStep(cfg, s, Receive)) && BreaksOk(cfg, BatcherStep(cfg, s, Receive))
  {
    BatcherOnly(s, s.batchQueue[1..], s.received + 1, [], s.batch + [s.batchQueue[0]]);
    BatcherOnly(s, s.batchQueue[1..], s.received + 1, s.batch + [s.batchQueue[0]], s.sending);
    EndsStay(cfg, s, BatcherStep(cfg, s, Receive));
  }

  /** Nothing changed but what the batcher itself holds. */
  predicate SameButBatcher(s: State, s': State) {
    && s'.parser == s.parser && s'.validator == s.validator && s'.normalizer == s.normalizer
    && s'.batcher == s.batcher && s'.publisher == s.publisher
    && s'.todo == s.todo && s'.parseQueue == s.parseQueue && s'.validated == s.validated
    && s'.normalizeQueue == s.normalizeQueue && s'.normalized == s.normalized
    && s'.publishQueue == s.publishQueue && s'.inflight == s.inflight
  }

  lemma BatcherOnly(s: State, queue: seq<DataMessage>, received: nat, batch: seq<DataMessage>,
                    sending: seq<DataMessage>)
    ensures SameButBatcher(s, s.(batchQueue := queue, received := received, batch := batch, sending := sending))
  {
  }

  lemma EndsStay(cfg: Config, s: State, s': State)
    requires CleanOk(cfg, s) && BreaksOk(cfg, s) && s.batcher == Running && SameButBatcher(s, s')
    ensures CleanOk(cfg, s') && BreaksOk(cfg, s')
  {
  }

  lemma BatcherFlushes(cfg: Config, s: State)
    requires Shaped(cfg, s) && s.batcher == Running && BatcherEnabled(s, Flush)
    ensures Shaped(cfg, BatcherStep(cfg, s, Flush))
  {
  }

  lemma BatcherSends(cfg: Config, s: State)
    requires Shaped(cfg, s) && s.batcher == Running && BatcherEnabled(s, Send)
    ensures Shaped(cfg, BatcherStep(cfg, s, Send))
  {
  }

  lemma BatcherStops(cfg: Config, s: State, action: Action)
    requires Shaped(cfg, s) && s.batcher == Running && BatcherEnabled(s, action)
    requires action == Break || action == End || action == Fail
    ensures Shaped(cfg, BatcherStep(cfg, s, action))
  {
  }

  lemma BatcherKeeps(cfg: Config, s: State, action: Action)
    requires Shaped(cfg, s) && s.batcher == Running && BatcherEnabled(s, action)
    ensures Shaped(cfg, BatcherStep(cfg, s, action)) && Work(BatcherStep(cfg, s, action)) < Work(s)
  {
    BatcherWorks(cfg, s, action);
    match action
    case Receive => BatcherFills(cfg, s);
    case Flush => BatcherFlushes(cfg, s);
    case Send => BatcherSends(cfg, s);
    case _ => BatcherStops(cfg, s, action);
  }

  lemma PublisherKeeps(cfg: Config, s: State, action: Action)
    requires Shaped(cfg, s) && s.publisher == Running && PublisherEnabled(s, action)
    ensures Shaped(cfg, PublisherStep(s, action)) && Work(PublisherStep(s, action)) < Work(s)
  {
    if action == Receive {
      FlatFirst(s.publishQueue);
      assert s.publishQueue[0] in s.publishQueue;
    }
  }

  lemma ShapedStep(cfg: Config, s: State, step: Step)
    requires Shaped(cfg, s) && Enabled(cfg, s, step)
    ensures Shaped(cfg, Apply(cfg, s, step)) && Work(Apply(cfg, s, step)) < Work(s)
  {
    match step
    case Parser(action) => ParserKeeps(cfg, s, action);
    case Validator(action) => ValidatorKeeps(cfg, s, action);
    case Normalizer(action) => NormalizerKeeps(cfg, s, action);
    case Batcher(action) => BatcherKeeps(cfg, s, action);
    case Publisher(action) => PublisherKeeps(cfg, s, action);
  }

  /** A refused send means the reader ended before its input did, which only a failure explains. */
  lemma BreakNeedsFailure(cfg: Config, s: State, step: Step)
    requires CleanOk(cfg, s) && BreaksOk(cfg, s) && Enabled(cfg, s, step) && step.action == Break
    ensures !NoneFailed(Apply(cfg, s, step))
  {
  }

  lemma StepCarries(cfg: Config, s: State, step: Step)
    requires CleanOk(cfg, s) && Enabled(cfg, s, step) && step.action != Break && step.action != Fail
    ensures Carried(cfg, s, Apply(cfg, s, step))
  {
    match step
    case Parser(action) => ParserCarries(cfg, s, action);
    case Validator(action) => ValidatorCarries(cfg, s, action);
    case Normalizer(action) => NormalizerCarries(cfg, s, action);
    case Batcher(action) => BatcherCarries(cfg, s, action);
    case Publisher(action) => PublisherCarries(cfg, s, action);
  }

  /** A failed stage stays failed. */
  lemma FailureStays(cfg: Config, s: State, step: Step)
    requires Enabled(cfg, s, step) && NoneFailed(Apply(cfg, s, step))
    ensures NoneFailed(s) && step.action != Fail
  {
    match step
    case Parser(action) => assert NoneFailed(ParserStep(cfg, s, action));
    case Validator(action) => assert NoneFailed(ValidatorStep(cfg, s, action));
    case Normalizer(action) => assert NoneFailed(NormalizerStep(cfg, s, action));
    case Batcher(action) => BatcherFailureStays(cfg, s, action);
    case Publisher(action) => assert NoneFailed(PublisherStep(s, action));
  }

  lemma BatcherFailureStays(cfg: Config, s: State, action: Action)
    requires s.batcher == Running && BatcherEnabled(s, action) && NoneFailed(BatcherStep(cfg, s, action))
    ensures NoneFailed(s) && action != Fail
  {
  }

  /** The parser's count follows what it has sent. */
  lemma ParsedFollows(cfg: Config, s: State, step: Step)
    requires Enabled(cfg, s, step)
    ensures Apply(cfg, s, step).parsed + |Apply(cfg, s, step).todo| == s.parsed + |s.todo|
  {
  }

  lemma StepKeeps(cfg: Config, s: State, records: seq<DataMessage>, step: Step)
    requires Inv(cfg, s, records) && Enabled(cfg, s, step)
    ensures Inv(cfg, Apply(cfg, s, step), records) && Work(Apply(cfg, s, step)) < Work(s)
  {
    ShapedStep(cfg, s, step);
    ParsedFollows(cfg, s, step);
    if NoneFailed(Apply(cfg, s, step)) {
      FailureStays(cfg, s, step);
      if step.action == Break {
        BreakNeedsFailure(cfg, s, step);
      } else {
        StepCarries(cfg, s, step);
      }
    }
  }

  // ---- Runs ----

  /** The state after the given steps, if each was enabled in turn. */
  function Run(cfg: Config, s: State, steps: seq<Step>): Option<State>
    decreases |steps|
  {
    if steps == [] then Some(s)
    else if Enabled(cfg, s, steps[0]) then Run(cfg, Apply(cfg, s, steps[0]), steps[1..])
    else None
  }

  lemma {:induction false} RunKeeps(cfg: Config, s: State, records: seq<DataMessage>, steps: seq<Step>)
    requires Inv(cfg, s, records) && Run(cfg, s, steps).Some?
    ensures Inv(cfg, Run(cfg, s, steps).value, records)
    decreases |steps|
  {
    if steps != [] {
      StepKeeps(cfg, s, records, steps[0]);
      RunKeeps(cfg, Apply(cfg, s, steps[0]), records, steps[1..]);
    }
  }

  /** Conservation for a state: the inductive form used by the run protocol. */
  lemma InvDelivers(cfg: Config, s: State, records: seq<DataMessage>)
    requires Inv(cfg, s, records) && Succeeded(s)
    ensures Flat(s.confirmed) == Expected(cfg, records)
    ensures s.parsed == |records| && s.received == |Expected(cfg, records)|
  {
    assert s.parseQueue + s.todo == [];
    assert Upstream(cfg, s) == [];
    assert Downstream(s) == Flat(s.confirmed);
  }

  /** Conservation: whatever the interleaving, if every stage returned Ok then the confirmed
      batches hold exactly the normalized output of the parser, minus what the rules skip,
      in order, none lost and none repeated; and the two counters say so. */
  lemma Conservation(cfg: Config, records: seq<DataMessage>, steps: seq<Step>)
    requires Run(cfg, Init(cfg, records), steps).Some?
    requires Succeeded(Run(cfg, Init(cfg, records), steps).value)
    ensures var s := Run(cfg, Init(cfg, records), steps).value;
            && Flat(s.confirmed) == Expected(cfg, records)
            && s.parsed == |records|
            && s.received == |Expected(cfg, records)|
            && (forall b :: b in s.confirmed ==> BatchOk(cfg, b))
  {
    InitKeeps(cfg, records);
    RunKeeps(cfg, Init(cfg, records), records, steps);
    InvDelivers(cfg, Run(cfg, Init(cfg, records), steps).value, records);
  }

  /** The batcher counts the batches that the publisher has got. */
  predicate BatchesCounted(s: State) {
    s.publisher != Failed ==>
      s.batches == |s.confirmed| + (if s.inflight == [] then 0 else 1) + |s.publishQueue|
  }

  lemma BatcherCounts(cfg: Config, s: State, action: Action)
    requires BatchesCounted(s) && s.batcher == Running && BatcherEnabled(s, action)
    ensures BatchesCounted(BatcherStep(cfg, s, action))
  {
  }

  lemma PublisherCounts(cfg: Config, s: State, action: Action)
    requires SizesOk(cfg, s) && BatchesCounted(s) && s.publisher == Running && PublisherEnabled(s, action)
    ensures BatchesCounted(PublisherStep(s, action))
  {
    if action == Receive {
      assert s.publishQueue[0] in s.publishQueue;
    }
  }

  lemma UpstreamCounts(cfg: Config, s: State, step: Step)
    requires Enabled(cfg, s, step) && !step.Batcher? && !step.Publisher?
    ensures var s' := Apply(cfg, s, step);
            && s'.publisher == s.publisher && s'.batches == s.batches && s'.confirmed == s.confirmed
            && s'.inflight == s.inflight && s'.publishQueue == s.publishQueue
  {
  }

  lemma StepCounts(cfg: Config, s: State, step: Step)
    requires SizesOk(cfg, s) && BatchesCounted(s) && Enabled(cfg, s, step)
    ensures BatchesCounted(Apply(cfg, s, step))
  {
    match step
    case Batcher(action) => BatcherCounts(cfg, s, action);
    case Publisher(action) => PublisherCounts(cfg, s, action);
    case _ => UpstreamCounts(cfg, s, step);
  }

  lemma {:induction false} RunCounts(cfg: Config, s: State, records: seq<DataMessage>, steps: seq<Step>)
    requires Inv(cfg, s, records) && BatchesCounted(s) && Run(cfg, s, steps).Some?
    ensures BatchesCounted(Run(cfg, s, steps).value)
    decreases |steps|
  {
    if steps != [] {
      StepKeeps(cfg, s, records, steps[0]);
      StepCounts(cfg, s, steps[0]);
      RunCounts(cfg, Apply(cfg, s, steps[0]), records, steps[1..]);
    }
  }

  /** The batches that the batcher reports are those that are confirmed. */
  lemma BatchesAgree(cfg: Config, records: seq<DataMessage>, steps: seq<Step>)
    requires Run(cfg, Init(cfg, records), steps).Some?
    requires Succeeded(Run(cfg, Init(cfg, records), steps).value)
    ensures var s := Run(cfg, Init(cfg, records), steps).value; s.batches == |s.confirmed|
  {
    InitKeeps(cfg, records);
    RunKeeps(cfg, Init(cfg, records), records, steps);
    RunCounts(cfg, Init(cfg, records), records, steps);
  }

  lemma {:induction false} RulesOnlyDrop(cfg: Config, records: seq<DataMessage>)
    ensures |Validated(cfg, records)| <= |records|
    ensures cfg.validate == None ==> Validated(cfg, records) == records
  {
    if records != [] {
      RulesOnlyDrop(cfg, records[1..]);
    }
  }

  /** The two counts of a file: what the batcher counted while records passed, which the progress
      in memory shows, and what the parser counted, which the marker and the broadcast carry. They
      agree without rules, and with rules the first is the smaller by what was skipped. */
  lemma CountersAgree(cfg: Config, records: seq<DataMessage>, steps: seq<Step>)
    requires Run(cfg, Init(cfg, records), steps).Some?
    requires Succeeded(Run(cfg, Init(cfg, records), steps).value)
    ensures var s := Run(cfg, Init(cfg, records), steps).value;
            && s.received == |Validated(cfg, records)| <= s.parsed
            && (cfg.validate == None ==> s.received == s.parsed)
  {
    Conservation(cfg, records, steps);
    RulesOnlyDrop(cfg, records);
  }

  /** Any stage may fail at any time while it runs, and takes nothing back that was confirmed. */
  lemma AnyStageMayFail(cfg: Config, s: State)
    ensures s.parser == Running ==> Enabled(cfg, s, Parser(Fail)) && Apply(cfg, s, Parser(Fail)).parser == Failed
    ensures s.validator == Running ==>
              Enabled(cfg, s, Validator(Fail)) && Apply(cfg, s, Validator(Fail)).validator == Failed
    ensures s.normalizer == Running ==>
              Enabled(cfg, s, Normalizer(Fail)) && Apply(cfg, s, Normalizer(Fail)).normalizer == Failed
    ensures s.batcher == Running ==> Enabled(cfg, s, Batcher(Fail)) && Apply(cfg, s, Batcher(Fail)).batcher == Failed
    ensures s.publisher == Running ==>
              Enabled(cfg, s, Publisher(Fail))
              && Apply(cfg, s, Publisher(Fail)) == s.(publisher := Failed, inflight := [])
  {
  }

  /** A stage that left its loop with Ok because its reader had gone is never the end of the
      story: a stage after it failed. So an all-Ok pipeline had no silent break. */
  lemma SilentBreakIsPaidFor(cfg: Config, records: seq<DataMessage>, steps: seq<Step>)
    requires Run(cfg, Init(cfg, records), steps).Some?
    ensures var s := Run(cfg, Init(cfg, records), steps).value;
            && (s.parser == Broke ==>
                s.validator == Failed || s.normalizer == Failed || s.batcher == Failed || s.publisher == Failed)
            && (s.validator == Broke ==> s.normalizer == Failed || s.batcher == Failed || s.publisher == Failed)
            && (s.normalizer == Broke ==> s.batcher == Failed || s.publisher == Failed)
            && s.batcher != Broke && s.publisher != Broke
  {
    InitKeeps(cfg, records);
    RunKeeps(cfg, Init(cfg, records), records, steps);
  }

  // ---- Progress ----

  /** The step that some task can take while any task runs, sought from the publisher back. */
  function NextStep(cfg: Config, s: State): Step {
    if s.publisher == Running && s.inflight != [] then Publisher(Confirm)
    else if s.publisher == Running && s.publishQueue != [] then Publisher(Receive)
    else if s.batcher == Running && s.sending != [] then Batcher(if s.publisher == Running then Send else Break)
    else if s.batcher == Running && s.batchQueue != [] then Batcher(Receive)
    else UpstreamNext(cfg, s)
  }

  function UpstreamNext(cfg: Config, s: State): Step {
    if s.normalizer == Running && s.normalized.Some? then Normalizer(if s.batcher == Running then Send else Break)
    else if s.normalizer == Running && s.normalizeQueue != [] then Normalizer(Receive)
    else if s.validator == Running && s.validated.Some? then Validator(if s.normalizer == Running then Send else Break)
    else if s.validator == Running && s.parseQueue != [] then Validator(Receive)
    else if s.parser == Running
      then Parser(if s.todo == [] then End else if ParserReader(cfg, s) == Running then Send else Break)
    else EndNext(s)
  }

  function EndNext(s: State): Step {
    if s.validator == Running then Validator(End)
    else if s.normalizer == Running then Normalizer(End)
    else if s.batcher == Running then Batcher(if s.batch != [] then Flush else End)
    else Publisher(End)
  }

  lemma NextStepEnabled(cfg: Config, s: State)
    requires cfg.queueSize >= 1 && CleanOk(cfg, s) && !AllStopped(s)
    ensures NextStep(cfg, s).action != Fail && Enabled(cfg, s, NextStep(cfg, s))
  {
  }

  lemma {:induction false} Progress(cfg: Config, records: seq<DataMessage>, steps: seq<Step>)
    requires cfg.queueSize >= 1
    requires Run(cfg, Init(cfg, records), steps).Some?
    ensures var s := Run(cfg, Init(cfg, records), steps).value;
            && (!AllStopped(s) ==> NextStep(cfg, s).action != Fail && Enabled(cfg, s, NextStep(cfg, s)))
            && |steps| + Work(s) <= Work(Init(cfg, records))
  {
    InitKeeps(cfg, records);
    RunKeeps(cfg, Init(cfg, records), records, steps);
    RunIsShort(cfg, Init(cfg, records), records, steps);
    var s := Run(cfg, Init(cfg, records), steps).value;
    if !AllStopped(s) {
      NextStepEnabled(cfg, s);
    }
  }

  lemma {:induction false} RunIsShort(cfg: Config, s: State, records: seq<DataMessage>, steps: seq<Step>)
    requires Inv(cfg, s, records) && Run(cfg, s, steps).Some?
    ensures |steps| + Work(Run(cfg, s, steps).value) <= Work(s)
    decreases |steps|
  {
    if steps != [] {
      StepKeeps(cfg, s, records, steps[0]);
      RunIsShort(cfg, Apply(cfg, s, steps[0]), records, steps[1..]);
    }
  }
}
