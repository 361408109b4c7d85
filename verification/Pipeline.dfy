/** The per-file pipeline: parser, optional validator, normalizer, batcher and publisher,
    joined by bounded channels. Each stage is a task of its own, so the pipeline is a
    state machine whose steps are one channel operation each, in any interleaving.

    A `tokio::sync::mpsc` channel refuses a send once its receiver is gone, and a receiver
    sees the end once every sender is gone and the buffer is empty. Three stages answer a
    refused send by leaving their loop with Ok, the batcher answers it with Err. */
module Pipeline {
  import opened Json

  /** What one file's pipeline is built from. `validate` is the optional rules stage: it
      skips a record or passes on a filtered one. */
  datatype Config = Config(
    validate: Option<DataMessage -> Option<DataMessage>>,
    normalize: DataMessage -> DataMessage,
    batchSize: nat,
    queueSize: nat)

  /** Capacity of the channel between batcher and publisher. */
  const BATCH_CHANNEL: nat := 100

  /** How a stage stands. `Clean`: its input ended. `Broke`: its receiver was gone and it
      returned Ok all the same. `Failed`: it returned Err or panicked. */
  datatype Exit = Running | Clean | Broke | Failed

  datatype State = State(
    todo: seq<DataMessage>,           // records the parser has not sent yet
    parsed: nat,                      // the parser's record count
    parser: Exit,
    parseQueue: seq<DataMessage>,     // parser to validator
    validator: Exit,
    validated: Option<DataMessage>,   // held by the validator while its send waits
    normalizeQueue: seq<DataMessage>, // to the normalizer
    normalizer: Exit,
    normalized: Option<DataMessage>,  // held by the normalizer while its send waits
    batchQueue: seq<DataMessage>,     // normalizer to batcher
    batcher: Exit,
    batch: seq<DataMessage>,          // the batch being filled
    sending: seq<DataMessage>,        // the batch whose send waits; [] when none
    received: nat,                    // the batcher's total_records
    batches: nat,                     // the batcher's total_batches
    publishQueue: seq<seq<DataMessage>>,
    publisher: Exit,
    inflight: seq<DataMessage>,       // the batch inside publish_batch; [] when none
    confirmed: seq<seq<DataMessage>>) // batches for which publish_batch returned Ok

  /** One action of one task. */
  datatype Step =
    | Parser(action: Action)
    | Validator(action: Action)
    | Normalizer(action: Action)
    | Batcher(action: Action)
    | Publisher(action: Action)

  /** `Send` is an accepted send, `Break` a refused one, `Confirm` a publish_batch that returned
      Ok, `Flush` a send of a partial batch (on a timeout, or when the input has ended), `End`
      the end of the input, `Fail` an Err or a panic. */
  datatype Action = Receive | Send | Break | Flush | Confirm | End | Fail

  /** Without rules there is no validator task: it counts as finished from the start. */
  function Init(cfg: Config, records: seq<DataMessage>): State {
    State(records, 0, Running,
          [], if cfg.validate.Some? then Running else Clean, None,
          [], Running, None,
          [], Running, [], [], 0, 0,
          [], Running, [], [])
  }

  /** The task that reads what the parser sends. */
  function ParserReader(cfg: Config, s: State): Exit {
    if cfg.validate.Some? then s.validator else s.normalizer
  }

  function ParserQueue(cfg: Config, s: State): seq<DataMessage> {
    if cfg.validate.Some? then s.parseQueue else s.normalizeQueue
  }

  /** The task that feeds the normalizer. */
  function NormalizerWriter(cfg: Config, s: State): Exit {
    if cfg.validate.Some? then s.validator else s.parser
  }

  predicate Enabled(cfg: Config, s: State, step: Step) {
    match step
    case Parser(action) => s.parser == Running && ParserEnabled(cfg, s, action)
    case Validator(action) => s.validator == Running && ValidatorEnabled(cfg, s, action)
    case Normalizer(action) => s.normalizer == Running && NormalizerEnabled(cfg, s, action)
    case Batcher(action) => s.batcher == Running && BatcherEnabled(s, action)
    case Publisher(action) => s.publisher == Running && PublisherEnabled(s, action)
  }

  predicate ParserEnabled(cfg: Config, s: State, action: Action) {
    match action
    case Send => s.todo != [] && ParserReader(cfg, s) == Running && |ParserQueue(cfg, s)| < cfg.queueSize
    case Break => s.todo != [] && ParserReader(cfg, s) != Running
    case End => s.todo == []
    case Fail => true
    case _ => false
  }

  predicate ValidatorEnabled(cfg: Config, s: State, action: Action) {
    match action
    case Receive => s.validated == None && s.parseQueue != []
    case Send => s.validated.Some? && s.normalizer == Running && |s.normalizeQueue| < cfg.queueSize
    case Break => s.validated.Some? && s.normalizer != Running
    case End => s.validated == None && s.parseQueue == [] && s.parser != Running
    case Fail => true
    case _ => false
  }

  predicate NormalizerEnabled(cfg: Config, s: State, action: Action) {
    match action
    case Receive => s.normalized == None && s.normalizeQueue != []
    case Send => s.normalized.Some? && s.batcher == Running && |s.batchQueue| < cfg.queueSize
    case Break => s.normalized.Some? && s.batcher != Running
    case End => s.normalized == None && s.normalizeQueue == [] && NormalizerWriter(cfg, s) != Running
    case Fail => true
    case _ => false
  }

  predicate BatcherEnabled(s: State, action: Action) {
    match action
    case Receive => s.sending == [] && s.batchQueue != []
    case Flush => s.sending == [] && s.batchQueue == [] && s.batch != []
    case Send => s.sending != [] && s.publisher == Running && |s.publishQueue| < BATCH_CHANNEL
    case Break => s.sending != [] && s.publisher != Running
    case End => s.sending == [] && s.batchQueue == [] && s.normalizer != Running && s.batch == []
    case Fail => true
    case _ => false
  }

  predicate PublisherEnabled(s: State, action: Action) {
    match action
    case Receive => s.inflight == [] && s.publishQueue != []
    case Confirm => s.inflight != []
    case End => s.inflight == [] && s.publishQueue == [] && s.batcher != Running
    case Fail => true
    case _ => false
  }

  function Apply(cfg: Config, s: State, step: Step): State
    requires Enabled(cfg, s, step)
  {
    match step
    case Parser(action) => ParserStep(cfg, s, action)
    case Validator(action) => ValidatorStep(cfg, s, action)
    case Normalizer(action) => NormalizerStep(cfg, s, action)
    case Batcher(action) => BatcherStep(cfg, s, action)
    case Publisher(action) => PublisherStep(s, action)
  }

  function ParserStep(cfg: Config, s: State, action: Action): State
    requires ParserEnabled(cfg, s, action)
  {
    match action
    case Send =>
      var s' := s.(todo := s.todo[1..], parsed := s.parsed + 1);
      if cfg.validate.Some? then s'.(parseQueue := s.parseQueue + [s.todo[0]])
      else s'.(normalizeQueue := s.normalizeQueue + [s.todo[0]])
    case Break => s.(parser := Broke)
    case End => s.(parser := Clean)
    case Fail => s.(parser := Failed)
  }

  function ValidatorStep(cfg: Config, s: State, action: Action): State
    requires ValidatorEnabled(cfg, s, action)
  {
    match action
    case Receive =>
      s.(parseQueue := s.parseQueue[1..],
         validated := if cfg.validate.Some? then cfg.validate.value(s.parseQueue[0]) else None)
    case Send => s.(normalizeQueue := s.normalizeQueue + [s.validated.value], validated := None)
    case Break => s.(validator := Broke, validated := None)
    case End => s.(validator := Clean)
    case Fail => s.(validator := Failed, validated := None)
  }

  function NormalizerStep(cfg: Config, s: State, action: Action): State
    requires NormalizerEnabled(cfg, s, action)
  {
    match action
    case Receive => s.(normalizeQueue := s.normalizeQueue[1..], normalized := Some(cfg.normalize(s.normalizeQueue[0])))
    case Send => s.(batchQueue := s.batchQueue + [s.normalized.value], normalized := None)
    case Break => s.(normalizer := Broke, normalized := None)
    case End => s.(normalizer := Clean)
    case Fail => s.(normalizer := Failed, normalized := None)
  }

  function BatcherStep(cfg: Config, s: State, action: Action): State
    requires BatcherEnabled(s, action)
  {
    match action
    case Receive =>
      var filled := s.batch + [s.batchQueue[0]];
      var s' := s.(batchQueue := s.batchQueue[1..], received := s.received + 1);
      if |filled| >= cfg.batchSize then s'.(batch := [], sending := filled) else s'.(batch := filled)
    case Flush => s.(batch := [], sending := s.batch)
    case Send => s.(publishQueue := s.publishQueue + [s.sending], sending := [], batches := s.batches + 1)
    case Break => s.(batcher := Failed, sending := [])
    case End => s.(batcher := Clean)
    case Fail => s.(batcher := Failed, batch := [], sending := [])
  }

  function PublisherStep(s: State, action: Action): State
    requires PublisherEnabled(s, action)
  {
    match action
    case Receive => s.(publishQueue := s.publishQueue[1..], inflight := s.publishQueue[0])
    case Confirm => s.(inflight := [], confirmed := s.confirmed + [s.inflight])
    case End => s.(publisher := Clean)
    case Fail => s.(publisher := Failed, inflight := [])
  }

  // ---- What the pipeline owes: the independent reference ----

  function Flat<T>(batches: seq<seq<T>>): seq<T> {
    if batches == [] then [] else Flat(batches[..|batches| - 1]) + batches[|batches| - 1]
  }

  /** The records the rules let through, in order. */
  function Validated(cfg: Config, records: seq<DataMessage>): seq<DataMessage> {
    if records == [] then []
    else
      var rest := Validated(cfg, records[1..]);
      match cfg.validate
      case None => [records[0]] + rest
      case Some(rules) =>
        match rules(records[0])
        case None => rest
        case Some(kept) => [kept] + rest
  }

  function Normalized(cfg: Config, records: seq<DataMessage>): seq<DataMessage> {
    seq(|records|, i requires 0 <= i < |records| => cfg.normalize(records[i]))
  }

  /** What must reach the broker for a file with these records. */
  function Expected(cfg: Config, records: seq<DataMessage>): seq<DataMessage> {
    Normalized(cfg, Validated(cfg, records))
  }

  predicate AllStopped(s: State) {
    s.parser != Running && s.validator != Running && s.normalizer != Running && s.batcher != Running
      && s.publisher != Running
  }

  predicate NoneFailed(s: State) {
    s.parser != Failed && s.validator != Failed && s.normalizer != Failed && s.batcher != Failed
      && s.publisher != Failed
  }

  /** What `process_single_file` sees: every stage has returned, and returned Ok. */
  predicate Succeeded(s: State) {
    AllStopped(s) && NoneFailed(s)
  }

  // ---- The invariant ----

  function Held(message: Option<DataMessage>): seq<DataMessage> {
    match message case None => [] case Some(m) => [m]
  }

  /** Everything from the broker back to the batcher's input, oldest first. */
  function Downstream(s: State): seq<DataMessage> {
    Flat(s.confirmed) + s.inflight + Flat(s.publishQueue) + s.sending + s.batch
  }

  /** Everything from the batcher's input back to the parser, in the shape it will be published. */
  function Upstream(cfg: Config, s: State): seq<DataMessage> {
    s.batchQueue + Held(s.normalized)
    + Normalized(cfg, s.normalizeQueue + Held(s.validated) + Validated(cfg, s.parseQueue + s.todo))
  }

  ghost predicate BatchOk(cfg: Config, batch: seq<DataMessage>) {
    0 < |batch| && (|batch| <= cfg.batchSize || |batch| == 1)
  }

  ghost predicate SizesOk(cfg: Config, s: State) {
    && (forall b :: b in s.confirmed ==> BatchOk(cfg, b))
    && (forall b :: b in s.publishQueue ==> BatchOk(cfg, b))
    && (s.inflight != [] ==> BatchOk(cfg, s.inflight))
    && (s.sending != [] ==> BatchOk(cfg, s.sending))
    && (s.batch != [] ==> |s.batch| < cfg.batchSize)
    && |s.parseQueue| <= cfg.queueSize && |s.normalizeQueue| <= cfg.queueSize && |s.batchQueue| <= cfg.queueSize
    && |s.publishQueue| <= BATCH_CHANNEL
  }

  /** A stage that ended cleanly has nothing left and nobody who could still feed it. */
  ghost predicate CleanOk(cfg: Config, s: State) {
    && (s.parser == Clean ==> s.todo == [])
    && (cfg.validate.Some? && s.validator == Clean ==> s.parser != Running && s.parseQueue == [] && s.validated == None)
    && (cfg.validate.None? ==> s.validator == Clean && s.parseQueue == [] && s.validated == None)
    && (s.normalizer == Clean ==> NormalizerWriter(cfg, s) != Running && s.normalizeQueue == [] && s.normalized == None)
    && (s.batcher == Clean ==> s.normalizer != Running && s.batchQueue == [] && s.batch == [] && s.sending == [])
    && (s.publisher == Clean ==> s.batcher != Running && s.publishQueue == [] && s.inflight == [])
  }

  /** A silent break is always paid for by an Err further down. */
  ghost predicate BreaksOk(cfg: Config, s: State) {
    && (s.parser == Broke ==>
        s.validator == Failed || s.normalizer == Failed || s.batcher == Failed || s.publisher == Failed)
    && (s.validator == Broke ==> s.normalizer == Failed || s.batcher == Failed || s.publisher == Failed)
    && (s.normalizer == Broke ==> s.batcher == Failed || s.publisher == Failed)
    && s.batcher != Broke && s.publisher != Broke
  }

  ghost predicate CountsOk(s: State, records: seq<DataMessage>) {
    && s.parsed + |s.todo| == |records|
    && (NoneFailed(s) ==> s.received == |Downstream(s)|)
  }

  ghost predicate Conserved(cfg: Config, s: State, records: seq<DataMessage>) {
    NoneFailed(s) ==> Downstream(s) + Upstream(cfg, s) == Expected(cfg, records)
  }

  ghost predicate Inv(cfg: Config, s: State, records: seq<DataMessage>) {
    SizesOk(cfg, s) && CleanOk(cfg, s) && BreaksOk(cfg, s) && CountsOk(s, records) && Conserved(cfg, s, records)
  }
}
