/** The loops at the end of the pipeline: the batcher's, the publisher's, one batch's sends and
    confirms, and the final broadcast. What the broker and the channels answer is an input. */
module Publishing {
  import opened Json
  import Pipeline
  import PipelineProofs

  datatype PublishError =
    | NoChannel
    | NotEncoded // the message could not be serialized
    | SendFailed
    | Unsettled // no confirm in time, or the channel closed
    | Unroutable(code: nat, text: string)
    | NotAcked

  datatype Result = Ok | Err(error: PublishError)

  /** A `basic.return`: the message reached the exchange but no queue. */
  datatype Return = Return(code: nat, text: string)

  /** What becomes of one message: whether it serializes, whether the send is accepted, and the
      confirm, if any. */
  datatype Answer = Answer(encoded: bool, sent: bool, confirm: Option<Confirm>)
  datatype Confirm = Confirm(acked: bool, returned: Option<Return>)

  /** Acked and routed: the only way a message counts as delivered. */
  predicate Proven(answer: Answer) {
    answer.confirm.Some? && answer.confirm.value.acked && answer.confirm.value.returned == None
  }

  /** An ack alone proves nothing: fanout exchanges without queues ack and drop. */
  function CheckConfirmation(acked: bool, returned: Option<Return>): (r: Result)
    ensures r == Ok <==> Proven(Answer(true, true, Some(Confirm(acked, returned))))
    ensures returned.Some? ==> r.Err? && r.error.Unroutable? && r.error.code == returned.value.code
  {
    if returned.Some? then Err(Unroutable(returned.value.code, returned.value.text))
    else if !acked then Err(NotAcked)
    else Ok
  }

  function Settle(answer: Answer): (r: Result)
    ensures r == Ok <==> Proven(answer)
  {
    match answer.confirm
    case None => Err(Unsettled)
    case Some(confirm) => CheckConfirmation(confirm.acked, confirm.returned)
  }

  /** A message goes on the wire if it serializes and the send is accepted. */
  predicate OnWire(answer: Answer) {
    answer.encoded && answer.sent
  }

  /** All messages go on the wire before the first confirm is awaited. Ok means that there was a
      channel and every message was acked and routed; a message that does not go on the wire stops
      the sending, and the first confirm that proves no delivery fails the batch. */
  method PublishBatch(connected: bool, messages: seq<DataMessage>, answers: seq<Answer>)
    returns (result: Result, wire: seq<DataMessage>)
    requires |answers| == |messages|
    ensures wire <= messages
    ensures result == Ok <==>
            connected && forall i :: 0 <= i < |answers| ==> answers[i].encoded && answers[i].sent && Proven(answers[i])
    ensures !connected ==> result == Err(NoChannel) && wire == []
    ensures forall i :: 0 <= i < |wire| ==> OnWire(answers[i])
    ensures connected && wire != messages ==>
              !OnWire(answers[|wire|]) && result == Err(if answers[|wire|].encoded then SendFailed else NotEncoded)
    ensures connected && wire == messages && result != Ok ==>
              exists i :: 0 <= i < |answers| && result == Settle(answers[i])
                && (forall j :: 0 <= j < i ==> Proven(answers[j]))
  {
    wire := [];
    if !connected {
      return Err(NoChannel), wire;
    }
    for i := 0 to |messages|
      invariant wire == messages[..i]
      invariant forall j :: 0 <= j < i ==> OnWire(answers[j])
    {
      if !answers[i].encoded {
        return Err(NotEncoded), wire;
      }
      if !answers[i].sent {
        return Err(SendFailed), wire;
      }
      wire := wire + [messages[i]];
    }
    for i := 0 to |answers|
      invariant forall j :: 0 <= j < i ==> Proven(answers[j])
    {
      result := Settle(answers[i]);
      if result != Ok {
        return;
      }
    }
    result := Ok;
  }

  /** The exchanges in the order they are served whose publish was confirmed. */
  function Reached<T>(exchanges: seq<T>, confirmed: seq<bool>): seq<T>
    requires |confirmed| == |exchanges|
  {
    if exchanges == [] then []
    else
      var k := |exchanges| - 1;
      Reached(exchanges[..k], confirmed[..k]) + (if confirmed[k] then [exchanges[k]] else [])
  }

  /** Every exchange is attempted whatever happened to the ones before it, and the broadcast
      succeeds only when all of them confirmed. */
  method SendExtractionComplete<T>(exchanges: seq<T>, confirmed: seq<bool>) returns (ok: bool, reached: seq<T>)
    requires |confirmed| == |exchanges|
    ensures reached == Reached(exchanges, confirmed)
    ensures ok <==> forall i :: 0 <= i < |confirmed| ==> confirmed[i]
  {
    reached := [];
    var errors := 0;
    for i := 0 to |exchanges|
      invariant reached == Reached(exchanges[..i], confirmed[..i])
      invariant errors == 0 <==> forall j :: 0 <= j < i ==> confirmed[j]
    {
      assert exchanges[..i + 1][..i] == exchanges[..i] && confirmed[..i + 1][..i] == confirmed[..i];
      if confirmed[i] {
        reached := reached + [exchanges[i]];
      } else {
        errors := errors + 1;
      }
    }
    assert exchanges[..|exchanges|] == exchanges && confirmed[..|confirmed|] == confirmed;
    ok := errors == 0;
  }

  /** An exchange is reached exactly when its own publish was confirmed. */
  lemma {:induction false} ReachedIff<T>(exchanges: seq<T>, confirmed: seq<bool>, x: T)
    requires |confirmed| == |exchanges|
    ensures x in Reached(exchanges, confirmed) <==>
              exists i :: 0 <= i < |exchanges| && exchanges[i] == x && confirmed[i]
  {
    if exchanges != [] {
      var k := |exchanges| - 1;
      ReachedIff(exchanges[..k], confirmed[..k], x);
      if x in Reached(exchanges[..k], confirmed[..k]) {
        var i :| 0 <= i < k && exchanges[..k][i] == x && confirmed[..k][i];
        assert exchanges[i] == x && confirmed[i];
      }
      if i :| 0 <= i < |exchanges| && exchanges[i] == x && confirmed[i] {
        assert i < k ==> exchanges[..k][i] == x && confirmed[..k][i];
      }
    }
  }

  /** The publisher's loop: it stops at the first batch that is not proven delivered. */
  method MessagePublisher(batches: seq<seq<DataMessage>>, published: seq<bool>)
      returns (ok: bool, confirmed: seq<seq<DataMessage>>)
    requires |published| == |batches|
    ensures confirmed <= batches
    ensures forall i :: 0 <= i < |confirmed| ==> published[i]
    ensures if ok then confirmed == batches else |confirmed| < |batches| && !published[|confirmed|]
  {
    confirmed := [];
    for i := 0 to |batches|
      invariant confirmed == batches[..i]
      invariant forall j :: 0 <= j < i ==> published[j]
    {
      if !published[i] {
        return false, confirmed;
      }
      confirmed := confirmed + [batches[i]];
    }
    ok := true;
  }

  // ---- The batcher ----

  /** What the batcher's receive yields: a message, or nothing within 100 ms. `stale` says
      whether the last flush is more than a second ago. */
  datatype Arrival = Message(message: DataMessage) | Quiet(stale: bool)

  function Messages(arrivals: seq<Arrival>): seq<DataMessage> {
    if arrivals == [] then []
    else
      var last := arrivals[|arrivals| - 1];
      Messages(arrivals[..|arrivals| - 1]) + (if last.Message? then [last.message] else [])
  }

  /** What the batcher writes into the marker: records, records, batches. */
  datatype Update = Update(records: nat, batches: nat)

  /** A full batch is sent at once, one that is not when nothing has come for a while. */
  predicate MustFlush(arrival: Arrival, batch: seq<DataMessage>, batchSize: nat) {
    batch != [] && (if arrival.Message? then |batch| >= batchSize else arrival.stale)
  }

  predicate Due(total: nat, interval: nat, lastSave: nat) {
    (if interval == 0 then total == 0 else total % interval == 0) && total != lastSave
  }

  /** The batcher between two arrivals. */
  datatype Filling = Filling(out: seq<seq<DataMessage>>, batch: seq<DataMessage>, updates: seq<Update>, lastSave: nat)

  /** A message goes into the batch, and its number into the marker when that is due. */
  function Filled(f: Filling, m: DataMessage, total: nat, interval: nat): Filling {
    var due := Due(total, interval, f.lastSave);
    Filling(f.out, f.batch + [m], if due then f.updates + [Update(total, |f.out|)] else f.updates,
            if due then total else f.lastSave)
  }

  function Flushed(f: Filling): Filling {
    f.(out := f.out + [f.batch], batch := [])
  }

  function Arrived(f: Filling, arrival: Arrival, total: nat, interval: nat): Filling {
    if arrival.Message? then Filled(f, arrival.message, total, interval) else f
  }

  /** The batcher after one more arrival, if nothing it sends is refused. */
  function After(f: Filling, arrival: Arrival, total: nat, batchSize: nat, interval: nat): Filling {
    var filled := Arrived(f, arrival, total, interval);
    if MustFlush(arrival, filled.batch, batchSize) then Flushed(filled) else filled
  }

  function Fed(arrivals: seq<Arrival>, batchSize: nat, interval: nat): Filling {
    if arrivals == [] then Filling([], [], [], 0)
    else
      var k := |arrivals| - 1;
      After(Fed(arrivals[..k], batchSize, interval), arrivals[k], |Messages(arrivals)|, batchSize, interval)
  }

  /** All the batches of these arrivals. */
  function AllBatches(arrivals: seq<Arrival>, batchSize: nat, interval: nat): seq<seq<DataMessage>> {
    var f := Fed(arrivals, batchSize, interval);
    if f.batch == [] then f.out else Flushed(f).out
  }

  /** Each update is at or beyond the one before it, and none is beyond this. */
  ghost predicate Below(updates: seq<Update>, records: nat, batches: nat)
    decreases |updates|
  {
    updates != [] ==>
      var last := updates[|updates| - 1];
      last.records <= records && last.batches <= batches && Below(updates[..|updates| - 1], last.records, last.batches)
  }

  lemma UpdateKept(updates: seq<Update>, records: nat, batches: nat, records': nat, batches': nat)
    requires Below(updates, records, batches) && records <= records' && batches <= batches'
    ensures Below(updates + [Update(records', batches')], records', batches')
    ensures Below(updates, records', batches')
  {
    assert (updates + [Update(records', batches')])[..|updates|] == updates;
  }

  ghost predicate BatchesOk(out: seq<seq<DataMessage>>, batchSize: nat) {
    forall b :: b in out ==> 0 < |b| && (|b| <= batchSize || |b| == 1)
  }

  /** The batcher has received `msgs`: they are in the batches sent and the one being filled. */
  ghost predicate Holds(msgs: seq<DataMessage>, out: seq<seq<DataMessage>>, batch: seq<DataMessage>, batchSize: nat,
                        updates: seq<Update>) {
    && Pipeline.Flat(out) + batch == msgs
    && BatchesOk(out, batchSize)
    && (batch != [] ==> |batch| <= batchSize || |batch| == 1)
    && Below(updates, |msgs|, |out|)
  }

  /** What has been sent and reported at any moment is right: a prefix of the messages, in batches
      of the right size, and progress that never goes back or beyond. */
  ghost predicate Sound(msgs: seq<DataMessage>, out: seq<seq<DataMessage>>, batchSize: nat, updates: seq<Update>) {
    Pipeline.Flat(out) <= msgs && BatchesOk(out, batchSize) && Below(updates, |msgs|, |out|)
  }

  lemma Stops(msgs: seq<DataMessage>, all: seq<DataMessage>, out: seq<seq<DataMessage>>, batch: seq<DataMessage>,
              batchSize: nat, updates: seq<Update>)
    requires Holds(msgs, out, batch, batchSize, updates) && msgs <= all
    ensures Sound(all, out, batchSize, updates)
  {
    UpdateKept(updates, |msgs|, |out|, |all|, |out|);
  }

  lemma Ends(msgs: seq<DataMessage>, out: seq<seq<DataMessage>>, batchSize: nat, updates: seq<Update>)
    requires Holds(msgs, out, [], batchSize, updates)
    ensures Pipeline.Flat(out) == msgs && Sound(msgs, out, batchSize, updates + [Update(|msgs|, |out|)])
  {
    UpdateKept(updates, |msgs|, |out|, |msgs|, |out|);
  }

  lemma Receives(msgs: seq<DataMessage>, out: seq<seq<DataMessage>>, batch: seq<DataMessage>, batchSize: nat,
                 updates: seq<Update>, m: DataMessage)
    requires Holds(msgs, out, batch, batchSize, updates) && (batch != [] ==> |batch| < batchSize)
    ensures Holds(msgs + [m], out, batch + [m], batchSize, updates)
    ensures Holds(msgs + [m], out, batch + [m], batchSize, updates + [Update(|msgs| + 1, |out|)])
  {
    UpdateKept(updates, |msgs|, |out|, |msgs| + 1, |out|);
  }

  lemma Sends(msgs: seq<DataMessage>, out: seq<seq<DataMessage>>, batch: seq<DataMessage>, batchSize: nat,
              updates: seq<Update>)
    requires Holds(msgs, out, batch, batchSize, updates) && batch != []
    ensures Holds(msgs, out + [batch], [], batchSize, updates)
  {
    PipelineProofs.FlatLast(out, batch);
    UpdateKept(updates, |msgs|, |out|, |msgs|, |out| + 1);
  }

  /** Progress goes into the marker when the count is a multiple of the save interval. */
  method Report(updates: seq<Update>, total: nat, batches: nat, interval: nat, lastSave: nat)
    returns (updates': seq<Update>, lastSave': nat)
    ensures updates' == (if Due(total, interval, lastSave) then updates + [Update(total, batches)] else updates)
    ensures lastSave' == (if Due(total, interval, lastSave) then total else lastSave)
  {
    updates', lastSave' := updates, lastSave;
    if Due(total, interval, lastSave) {
      updates', lastSave' := updates + [Update(total, batches)], total;
    }
  }

  /** One arrival: a message is counted and put into the batch, and what is due is sent. */
  method Take(arrival: Arrival, batchSize: nat, interval: nat, room: nat, out: seq<seq<DataMessage>>,
              batch: seq<DataMessage>, updates: seq<Update>, lastSave: nat, total: nat)
    returns (stopped: bool, out': seq<seq<DataMessage>>, batch': seq<DataMessage>, updates': seq<Update>,
             lastSave': nat)
    requires |out| <= room
    ensures |out'| <= room
    ensures var f := Filling(out, batch, updates, lastSave); var filled := Arrived(f, arrival, total, interval);
            && stopped == (MustFlush(arrival, filled.batch, batchSize) && |out| == room)
            && Filling(out', batch', updates', lastSave')
               == if stopped then filled else After(f, arrival, total, batchSize, interval)
  {
    out', batch', updates', lastSave' := out, batch, updates, lastSave;
    if arrival.Message? {
      batch' := batch + [arrival.message];
      updates', lastSave' := Report(updates, total, |out|, interval, lastSave);
    }
    stopped := false;
    if MustFlush(arrival, batch', batchSize) {
      if |out| == room {
        return true, out', batch', updates', lastSave';
      }
      out', batch' := out + [batch'], [];
    }
  }

  /** The batcher's loop over everything it receives; the channel behind it accepts `room` sends.
      Ok means that the batches hold exactly the received messages in order; otherwise the
      accepted batches are a prefix of them. No batch is empty or larger than the batch size.
      Progress written to the marker never goes back, and ends with the true totals. */
  method MessageBatcher(arrivals: seq<Arrival>, batchSize: nat, interval: nat, room: nat)
    returns (ok: bool, out: seq<seq<DataMessage>>, updates: seq<Update>)
    ensures Sound(Messages(arrivals), out, batchSize, updates) && |out| <= room
    ensures if ok then Pipeline.Flat(out) == Messages(arrivals) else |out| == room
    ensures if ok then out == AllBatches(arrivals, batchSize, interval)
            else out < AllBatches(arrivals, batchSize, interval)
    ensures ok ==> updates == Fed(arrivals, batchSize, interval).updates + [Update(|Messages(arrivals)|, |out|)]
  {
    out, updates := [], [];
    var batch: seq<DataMessage> := [];
    var totalRecords, lastSave := 0, 0;
    for i := 0 to |arrivals|
      invariant Filling(out, batch, updates, lastSave) == Fed(arrivals[..i], batchSize, interval)
      invariant totalRecords == |Messages(arrivals[..i])| && |out| <= room
    {
      MessagesSoFar(arrivals, i);
      FedNext(arrivals, i, batchSize, interval);
      totalRecords := totalRecords + if arrivals[i].Message? then 1 else 0;
      var stopped;
      stopped, out, batch, updates, lastSave :=
        Take(arrivals[i], batchSize, interval, room, out, batch, updates, lastSave, totalRecords);
      if stopped {
        StoppedAt(arrivals, i, batchSize, interval, Filling(out, batch, updates, lastSave));
        return false, out, updates;
      }
    }
    assert arrivals[..|arrivals|] == arrivals;
    EndsWith(arrivals, batchSize, interval);
    if batch != [] {
      if |out| == room {
        return false, out, updates;
      }
      out, batch := out + [batch], [];
    }
    updates := updates + [Update(totalRecords, |out|)];
    ok := true;
  }

  /** What has been received is in the batches sent and the one being filled, which is not full. */
  lemma {:induction false} FedHolds(arrivals: seq<Arrival>, batchSize: nat, interval: nat)
    ensures var f := Fed(arrivals, batchSize, interval);
            Holds(Messages(arrivals), f.out, f.batch, batchSize, f.updates) && (f.batch != [] ==> |f.batch| < batchSize)
  {
    if arrivals != [] {
      var last := |arrivals| - 1;
      FedHolds(arrivals[..last], batchSize, interval);
      FilledHolds(arrivals, last, batchSize, interval);
      var before := Fed(arrivals[..last], batchSize, interval);
      assert arrivals[..last + 1] == arrivals;
      var filled := FilledAt(before, arrivals, last, interval);
      if MustFlush(arrivals[last], filled.batch, batchSize) {
        Sends(Messages(arrivals), filled.out, filled.batch, batchSize, filled.updates);
      }
    }
  }

  function FilledAt(before: Filling, arrivals: seq<Arrival>, i: nat, interval: nat): Filling
    requires i < |arrivals|
  {
    Arrived(before, arrivals[i], |Messages(arrivals[..i + 1])|, interval)
  }

  lemma FilledHolds(arrivals: seq<Arrival>, i: nat, batchSize: nat, interval: nat)
    requires i < |arrivals|
    requires var f := Fed(arrivals[..i], batchSize, interval);
             Holds(Messages(arrivals[..i]), f.out, f.batch, batchSize, f.updates)
               && (f.batch != [] ==> |f.batch| < batchSize)
    ensures var filled := FilledAt(Fed(arrivals[..i], batchSize, interval), arrivals, i, interval);
            Holds(Messages(arrivals[..i + 1]), filled.out, filled.batch, batchSize, filled.updates)
  {
    var f := Fed(arrivals[..i], batchSize, interval);
    MessagesSoFar(arrivals, i);
    if arrivals[i].Message? {
      Receives(Messages(arrivals[..i]), f.out, f.batch, batchSize, f.updates, arrivals[i].message);
    }
  }

  /** The loop stopped at this arrival, because the channel behind it took no more. */
  lemma StoppedAt(arrivals: seq<Arrival>, i: nat, batchSize: nat, interval: nat, filled: Filling)
    requires i < |arrivals| && filled == FilledAt(Fed(arrivals[..i], batchSize, interval), arrivals, i, interval)
    requires MustFlush(arrivals[i], filled.batch, batchSize)
    ensures Sound(Messages(arrivals), filled.out, batchSize, filled.updates)
    ensures filled.out < AllBatches(arrivals, batchSize, interval)
  {
    StoppedSound(arrivals, i, batchSize, interval, filled);
    StoppedShort(arrivals, i, batchSize, interval, filled);
  }

  lemma StoppedSound(arrivals: seq<Arrival>, i: nat, batchSize: nat, interval: nat, filled: Filling)
    requires i < |arrivals| && filled == FilledAt(Fed(arrivals[..i], batchSize, interval), arrivals, i, interval)
    ensures Sound(Messages(arrivals), filled.out, batchSize, filled.updates)
  {
    FedHolds(arrivals[..i], batchSize, interval);
    FilledHolds(arrivals, i, batchSize, interval);
    MessagesSoFar(arrivals, i);
    Stops(Messages(arrivals[..i + 1]), Messages(arrivals), filled.out, filled.batch, batchSize, filled.updates);
  }

  lemma StoppedShort(arrivals: seq<Arrival>, i: nat, batchSize: nat, interval: nat, filled: Filling)
    requires i < |arrivals| && filled == FilledAt(Fed(arrivals[..i], batchSize, interval), arrivals, i, interval)
    requires MustFlush(arrivals[i], filled.batch, batchSize)
    ensures filled.out < AllBatches(arrivals, batchSize, interval)
  {
    FedNext(arrivals, i, batchSize, interval);
    assert filled.out < Fed(arrivals[..i + 1], batchSize, interval).out;
    FedGrows(arrivals, i + 1, batchSize, interval);
  }

  /** The loop came to the end of its input. */
  lemma EndsWith(arrivals: seq<Arrival>, batchSize: nat, interval: nat)
    ensures var f := Fed(arrivals, batchSize, interval); var all := AllBatches(arrivals, batchSize, interval);
            && Sound(Messages(arrivals), f.out, batchSize, f.updates)
            && Sound(Messages(arrivals), all, batchSize, f.updates + [Update(|Messages(arrivals)|, |all|)])
            && Pipeline.Flat(all) == Messages(arrivals)
            && (f.batch != [] ==> f.out < all)
  {
    var f := Fed(arrivals, batchSize, interval);
    FedHolds(arrivals, batchSize, interval);
    Stops(Messages(arrivals), Messages(arrivals), f.out, f.batch, batchSize, f.updates);
    if f.batch == [] {
      Ends(Messages(arrivals), f.out, batchSize, f.updates);
    } else {
      Sends(Messages(arrivals), f.out, f.batch, batchSize, f.updates);
      Ends(Messages(arrivals), f.out + [f.batch], batchSize, f.updates);
    }
  }

  lemma {:induction false} MessagesSoFar(arrivals: seq<Arrival>, i: nat)
    requires i < |arrivals|
    ensures Messages(arrivals[..i + 1])
            == Messages(arrivals[..i]) + (if arrivals[i].Message? then [arrivals[i].message] else [])
    ensures Messages(arrivals[..i + 1]) <= Messages(arrivals)
    decreases |arrivals|
  {
    assert arrivals[..i + 1][..i] == arrivals[..i];
    if i + 1 < |arrivals| {
      var front := arrivals[..|arrivals| - 1];
      MessagesSoFar(front, i);
      assert front[..i + 1] == arrivals[..i + 1];
    } else {
      assert arrivals[..i + 1] == arrivals;
    }
  }

  // ---- When batches are sent ----

  lemma FedNext(arrivals: seq<Arrival>, i: nat, batchSize: nat, interval: nat)
    requires i < |arrivals|
    ensures Fed(arrivals[..i + 1], batchSize, interval)
         == After(Fed(arrivals[..i], batchSize, interval), arrivals[i], |Messages(arrivals[..i + 1])|, batchSize,
                  interval)
  {
    assert arrivals[..i + 1][..i] == arrivals[..i];
  }

  lemma {:induction false} FedGrows(arrivals: seq<Arrival>, i: nat, batchSize: nat, interval: nat)
    requires i <= |arrivals|
    ensures Fed(arrivals[..i], batchSize, interval).out <= Fed(arrivals, batchSize, interval).out
    decreases |arrivals| - i
  {
    if i == |arrivals| {
      assert arrivals[..i] == arrivals;
    } else {
      FedNext(arrivals, i, batchSize, interval);
      FedGrows(arrivals, i + 1, batchSize, interval);
    }
  }

  lemma Appended<T>(a: seq<T>, x: T)
    ensures (a + [x])[..|a + [x]| - 1] == a
  {
  }

  /** A message is put into the batch; the batch is sent as soon as it is full. */
  lemma FullIsSent(arrivals: seq<Arrival>, m: DataMessage, batchSize: nat, interval: nat)
    ensures var before := Fed(arrivals, batchSize, interval);
            var after := Fed(arrivals + [Message(m)], batchSize, interval);
            if |before.batch| + 1 >= batchSize then after.batch == [] && after.out == before.out + [before.batch + [m]]
            else after.batch == before.batch + [m] && after.out == before.out
  {
    Appended(arrivals, Message(m));
  }

  /** A pause long enough sends what there is, and leaves nothing; a shorter one does nothing. */
  lemma PauseSends(arrivals: seq<Arrival>, stale: bool, batchSize: nat, interval: nat)
    ensures var before := Fed(arrivals, batchSize, interval);
            var after := Fed(arrivals + [Quiet(stale)], batchSize, interval);
            && after.updates == before.updates
            && (if stale && before.batch != [] then after.batch == [] && after.out == before.out + [before.batch]
                else after == before)
  {
    Appended(arrivals, Quiet(stale));
  }

  // ---- When progress is written ----

  /** With an interval, progress is written at each of its multiples and nowhere else; without one, nowhere. */
  lemma {:induction false} ReportsAtMultiples(arrivals: seq<Arrival>, batchSize: nat, interval: nat, k: nat)
    requires 0 < k
    ensures var f := Fed(arrivals, batchSize, interval);
            && f.lastSave <= |Messages(arrivals)|
            && ((exists u :: u in f.updates && u.records == k) <==>
                  k <= |Messages(arrivals)| && interval > 0 && k % interval == 0)
  {
    if arrivals != [] {
      var last := |arrivals| - 1;
      var before := Fed(arrivals[..last], batchSize, interval);
      ReportsAtMultiples(arrivals[..last], batchSize, interval, k);
      if arrivals[last].Message? {
        ReportedNow(before, arrivals[last].message, |Messages(arrivals)|, interval, k);
      }
    }
  }

  lemma ReportedNow(f: Filling, m: DataMessage, total: nat, interval: nat, k: nat)
    requires f.lastSave < total
    ensures var filled := Filled(f, m, total, interval);
            && filled.lastSave <= total
            && ((exists u :: u in filled.updates && u.records == k) <==>
                  (exists u :: u in f.updates && u.records == k)
                  || (k == total && interval > 0 && total % interval == 0))
  {
    var filled := Filled(f, m, total, interval);
    if interval > 0 && total % interval == 0 {
      assert Update(total, |f.out|) in filled.updates;
    }
  }
}
