/** What the parser does when the input is damaged or the receiver is gone. */
module XmlFaults {
  import opened Json
  import opened Xml
  import opened XmlParser

  // ---- The receiver ----

  ghost predicate Limited(m: Machine, r: nat) {
    m.halt == Going && m.room == None && |m.out| <= r
  }

  ghost function WithRoom(m: Machine, r: nat): Machine
    requires |m.out| <= r
  {
    m.(room := Some(r - |m.out|))
  }

  /** The two parsers after an event that may emit one record: the limited one keeps up, or the
      record was the one too many. */
  ghost predicate KeepsUp(m: Machine, r: nat, m': Machine, b: Machine) {
    && m'.room == None && m'.halt != Stopped && m.out <= m'.out && |m'.out| <= |m.out| + 1
    && (if |m'.out| <= r then b == WithRoom(m', r) else b.halt == Stopped && b.out == m.out && |m.out| == r)
  }

  lemma RoomSend(m: Machine, r: nat, message: DataMessage)
    requires Limited(m, r)
    ensures KeepsUp(m, r, Send(m, message), Send(WithRoom(m, r), message))
  {
  }

  lemma RoomEnd(target: string, m: Machine, r: nat, name: string)
    requires Limited(m, r)
    ensures KeepsUp(m, r, OnEnd(target, m, name), OnEnd(target, WithRoom(m, r), name))
  {
    if m.inTarget && m.stack != [] && name == target && m.depth == 2 {
      RoomRecordEnd(target, m, r, name);
    }
  }

  /** What the end of a record does once its message has been sent, or there was none to send. */
  function AfterRecord(sent: Machine): Machine {
    if sent.halt != Going then sent else Closed(sent.(inTarget := false))
  }

  lemma RoomAfterRecord(m: Machine, r: nat, sent: Machine, limited: Machine)
    requires KeepsUp(m, r, sent, limited) && sent.halt == Going
    ensures KeepsUp(m, r, AfterRecord(sent), AfterRecord(limited))
  {
  }

  /** A record's end as one send and what follows it. */
  function EndOfRecord(rest: Machine, value: Value): Machine {
    AfterRecord(if value.Obj? then Send(rest, DataMessage(IdOf(value.fields), Obj(DropId(value.fields)))) else rest)
  }

  lemma RecordEnd(target: string, m: Machine, name: string)
    requires m.inTarget && m.stack != [] && name == target && m.depth == 2
    ensures OnEnd(target, m, name)
         == EndOfRecord(m.(stack := m.stack[..|m.stack| - 1]), IntoValue(m.stack[|m.stack| - 1]))
  {
  }

  lemma RoomEndOfRecord(m: Machine, r: nat, value: Value)
    requires Limited(m, r)
    ensures KeepsUp(m, r, EndOfRecord(m, value), EndOfRecord(WithRoom(m, r), value))
  {
    if value.Obj? {
      var message := DataMessage(IdOf(value.fields), Obj(DropId(value.fields)));
      RoomSend(m, r, message);
      RoomAfterRecord(m, r, Send(m, message), Send(WithRoom(m, r), message));
    } else {
      RoomAfterRecord(m, r, m, WithRoom(m, r));
    }
  }

  lemma RoomRecordEnd(target: string, m: Machine, r: nat, name: string)
    requires Limited(m, r) && m.inTarget && m.stack != [] && name == target && m.depth == 2
    ensures KeepsUp(m, r, OnEnd(target, m, name), OnEnd(target, WithRoom(m, r), name))
  {
    RecordEnd(target, m, name);
    RecordEnd(target, WithRoom(m, r), name);
    RoomEndOfRecord(m.(stack := m.stack[..|m.stack| - 1]), r, IntoValue(m.stack[|m.stack| - 1]));
  }

  /** An empty element that is a record: one send and what follows it. */
  function EmptyRecord(m: Machine, value: Value): Machine {
    var sent := if value.Obj? then Send(m, DataMessage(IdOf(value.fields), value)) else m;
    if sent.halt != Going then sent else sent.(inTarget := false)
  }

  lemma RoomEmptyRecord(m: Machine, r: nat, value: Value)
    requires Limited(m, r)
    ensures KeepsUp(m, r, EmptyRecord(m, value), EmptyRecord(WithRoom(m, r), value))
  {
    if value.Obj? {
      RoomSend(m, r, DataMessage(IdOf(value.fields), value));
    }
  }

  lemma RecordEmpty(target: string, m: Machine, name: string, attributes: seq<Attribute>)
    requires name == target && m.depth + 1 == 2
    ensures OnEmpty(target, m, name, attributes) == EmptyRecord(m.(stack := []), IntoValue(WithAttributes(attributes)))
  {
  }

  lemma RoomEmpty(target: string, m: Machine, r: nat, name: string, attributes: seq<Attribute>)
    requires Limited(m, r)
    ensures KeepsUp(m, r, OnEmpty(target, m, name, attributes), OnEmpty(target, WithRoom(m, r), name, attributes))
  {
    if name == target && m.depth + 1 == 2 {
      RecordEmpty(target, m, name, attributes);
      RecordEmpty(target, WithRoom(m, r), name, attributes);
      RoomEmptyRecord(m.(stack := []), r, IntoValue(WithAttributes(attributes)));
    }
  }

  lemma RoomEvent(target: string, m: Machine, r: nat, e: Event)
    requires Limited(m, r)
    ensures KeepsUp(m, r, OnEvent(target, m, e), OnEvent(target, WithRoom(m, r), e))
  {
    match e
    case End(name) => RoomEnd(target, m, r, name);
    case Empty(name, attributes) => RoomEmpty(target, m, r, name, attributes);
    case _ =>
  }

  lemma RoomStep(target: string, m: Machine, r: nat, e: Event)
    requires Limited(m, r)
    ensures KeepsUp(m, r, Step(target, m, e), Step(target, WithRoom(m, r), e))
  {
    if !e.Bad? {
      if !m.resyncing {
        RoomEvent(target, m, r, e);
      } else if (e.Start? || e.Empty?) && e.name == target {
        RoomEvent(target, m.(resyncing := false, depth := 1), r, e);
      }
    }
  }

  lemma {:induction false} OutGrows(target: string, m: Machine, events: seq<Event>)
    requires m.room == None
    ensures m.out <= Run(target, m, events).out
    decreases |events|
  {
    if events != [] {
      if m.halt == Going {
        RoomStep(target, m, |m.out|, events[0]);
      }
      OutGrows(target, Step(target, m, events[0]), events[1..]);
    }
  }

  lemma {:induction false} RoomRun(target: string, m: Machine, r: nat, events: seq<Event>)
    requires Limited(m, r)
    ensures var u := Run(target, m, events); var b := Run(target, WithRoom(m, r), events);
            if |u.out| <= r then b == WithRoom(u, r) else b.halt == Stopped && b.out == u.out[..r]
    decreases |events|
  {
    if events != [] {
      var m' := Step(target, m, events[0]);
      var b' := Step(target, WithRoom(m, r), events[0]);
      RoomStep(target, m, r, events[0]);
      OutGrows(target, m', events[1..]);
      if |m'.out| > r {
        HaltedStays(target, b', events[1..]);
      } else if m'.halt == Going {
        RoomRun(target, m', r, events[1..]);
      } else {
        HaltedStays(target, m', events[1..]);
        HaltedStays(target, b', events[1..]);
      }
    }
  }

  /** A receiver that goes away after r messages has got the first r records; the loop then ends
      with Ok. One that takes them all changes nothing. */
  lemma ReceiverGone(target: string, events: seq<Event>, r: nat)
    ensures var all := Run(target, Init(None), events); var m := Run(target, Init(Some(r)), events);
            if |all.out| <= r then m.halt == all.halt && m.out == all.out
            else m.halt == Stopped && m.out == all.out[..r]
  {
    RoomRun(target, Init(None), r, events);
  }

  // ---- The error budget ----

  /** The offsets at which the tokenizer reported errors. */
  function Errors(events: seq<Event>): seq<nat> {
    if events == [] then []
    else (if events[0].Bad? then [events[0].position] else []) + Errors(events[1..])
  }

  /** No more errors than are tolerated, and none where the one before it was. */
  predicate Tolerable(last: nat, used: nat, errors: seq<nat>) {
    && used + |errors| <= MAX_MALFORMED_RECORDS_PER_FILE
    && (errors != [] ==> errors[0] != last)
    && forall j :: 0 < j < |errors| ==> errors[j] != errors[j - 1]
  }

  lemma TolerableCons(last: nat, used: nat, errors: seq<nat>)
    requires errors != []
    ensures Tolerable(last, used, errors) ==
            (errors[0] != last && used + 1 <= MAX_MALFORMED_RECORDS_PER_FILE
              && Tolerable(errors[0], used + 1, errors[1..]))
  {
    var rest := errors[1..];
    if Tolerable(last, used, errors) {
      forall j | 0 < j < |rest| ensures rest[j] != rest[j - 1] {
        assert errors[j + 1] != errors[j];
      }
    }
    if Tolerable(errors[0], used + 1, rest) {
      forall j | 0 < j < |errors| ensures errors[j] != errors[j - 1] {
        assert errors[j] == rest[j - 1];
        assert j > 1 ==> rest[j - 1] != rest[j - 2];
      }
    }
  }

  lemma NotErrorStep(target: string, m: Machine, e: Event)
    requires m.halt == Going && m.room == None && !e.Bad?
    ensures var m' := Step(target, m, e);
            m'.halt == Going && m'.room == None && m'.malformed == m.malformed && m'.lastError == m.lastError
  {
  }

  lemma ErrorStep(m: Machine, position: nat)
    requires m.halt == Going && m.room == None
    ensures var m' := OnError(m, position);
            && m'.room == None
            && m'.halt == (if position != m.lastError && m.malformed + 1 <= MAX_MALFORMED_RECORDS_PER_FILE then Going
                           else Aborted)
            && (m'.halt == Going ==> m'.malformed == m.malformed + 1 && m'.lastError == position)
  {
  }

  /** How a run over these events ends. */
  ghost predicate Budgeted(m: Machine, events: seq<Event>, m': Machine) {
    && m'.halt == (if Tolerable(m.lastError, m.malformed, Errors(events)) then Going else Aborted)
    && m'.room == None
    && (m'.halt == Going ==> m'.malformed == m.malformed + |Errors(events)|)
  }

  lemma {:induction false} Budget(target: string, m: Machine, events: seq<Event>)
    requires m.halt == Going && m.room == None && m.malformed <= MAX_MALFORMED_RECORDS_PER_FILE
    ensures Budgeted(m, events, Run(target, m, events))
    decreases |events|, 0
  {
    if events != [] {
      if events[0].Bad? {
        BudgetOnError(target, m, events[0].position, events[1..]);
        assert [events[0]] + events[1..] == events;
      } else {
        NotErrorStep(target, m, events[0]);
        assert Errors(events) == Errors(events[1..]);
        Budget(target, Step(target, m, events[0]), events[1..]);
      }
    }
  }

  lemma {:induction false} BudgetOnError(target: string, m: Machine, position: nat, rest: seq<Event>)
    requires m.halt == Going && m.room == None && m.malformed <= MAX_MALFORMED_RECORDS_PER_FILE
    ensures Budgeted(m, [Bad(position)] + rest, Run(target, OnError(m, position), rest))
    decreases |rest|, 1
  {
    var errors := [position] + Errors(rest);
    assert ([Bad(position)] + rest)[1..] == rest;
    assert errors[1..] == Errors(rest);
    TolerableCons(m.lastError, m.malformed, errors);
    ErrorStep(m, position);
    var m' := OnError(m, position);
    if m'.halt == Going {
      Budget(target, m', rest);
    } else {
      HaltedStays(target, m', rest);
    }
  }

  /** Whatever the input, the file is parsed with Ok exactly when it has at most a hundred errors
      and none without progress since the one before. */
  lemma OkIffTolerable(target: string, events: seq<Event>)
    ensures Run(target, Init(None), events).halt != Aborted <==> Tolerable(NO_POSITION, 0, Errors(events))
  {
    Budget(target, Init(None), events);
  }

  // ---- Isolation ----

  /** A parser that has seen nothing but so many errors, the last at this offset. */
  function Resyncing(malformed: nat, position: nat): Machine {
    Machine(0, [], false, true, malformed, position, [], None, Going)
  }

  /** The same, up to records emitted before and the depth, which means nothing while resyncing. */
  ghost predicate Alike(m: Machine, f: Machine, before: seq<DataMessage>) {
    && m.out == before + f.out
    && (m.depth == f.depth || m.resyncing)
    && m.stack == f.stack && m.inTarget == f.inTarget && m.resyncing == f.resyncing
    && m.malformed == f.malformed && m.lastError == f.lastError
    && m.room == f.room == None && m.halt == f.halt
    && (m.resyncing ==> m.stack == [] && !m.inTarget)
  }

  lemma AlikeEvent(target: string, m: Machine, f: Machine, before: seq<DataMessage>, e: Event)
    requires Alike(m, f, before) && m.halt == Going && !m.resyncing && !e.Bad?
    ensures Alike(OnEvent(target, m, e), OnEvent(target, f, e), before)
  {
    match e
    case Empty(name, attributes) => AlikeEmpty(target, m, f, before, name, attributes);
    case End(name) => AlikeEnd(target, m, f, before, name);
    case _ =>
  }

  lemma AlikeSend(m: Machine, f: Machine, before: seq<DataMessage>, message: DataMessage)
    requires Alike(m, f, before) && m.halt == Going
    ensures Alike(Send(m, message), Send(f, message), before)
  {
    assert before + f.out + [message] == before + (f.out + [message]);
  }

  lemma AlikeEmpty(target: string, m: Machine, f: Machine, before: seq<DataMessage>, name: string,
                   attributes: seq<Attribute>)
    requires Alike(m, f, before) && m.halt == Going && !m.resyncing
    ensures Alike(OnEmpty(target, m, name, attributes), OnEmpty(target, f, name, attributes), before)
  {
    var value := IntoValue(WithAttributes(attributes));
    if value.Obj? {
      AlikeSend(m.(stack := []), f.(stack := []), before, DataMessage(IdOf(value.fields), value));
    }
  }

  lemma AlikeEnd(target: string, m: Machine, f: Machine, before: seq<DataMessage>, name: string)
    requires Alike(m, f, before) && m.halt == Going && !m.resyncing
    ensures Alike(OnEnd(target, m, name), OnEnd(target, f, name), before)
  {
    if m.inTarget && m.stack != [] {
      var value := IntoValue(m.stack[|m.stack| - 1]);
      var rest := m.stack[..|m.stack| - 1];
      if value.Obj? {
        AlikeSend(m.(stack := rest), f.(stack := rest), before,
                  DataMessage(IdOf(value.fields), Obj(DropId(value.fields))));
      }
    }
  }

  lemma AlikeStep(target: string, m: Machine, f: Machine, before: seq<DataMessage>, e: Event)
    requires Alike(m, f, before)
    ensures Alike(Step(target, m, e), Step(target, f, e), before)
  {
    if m.halt == Going && !e.Bad? {
      if !m.resyncing {
        AlikeEvent(target, m, f, before, e);
      } else if (e.Start? || e.Empty?) && e.name == target {
        AlikeEvent(target, m.(resyncing := false, depth := 1), f.(resyncing := false, depth := 1), before, e);
      }
    }
  }

  lemma {:induction false} AlikeRun(target: string, m: Machine, f: Machine, before: seq<DataMessage>,
                                    events: seq<Event>)
    requires Alike(m, f, before)
    ensures Alike(Run(target, m, events), Run(target, f, events), before)
    decreases |events|
  {
    if events != [] {
      AlikeStep(target, m, f, before, events[0]);
      AlikeRun(target, Step(target, m, events[0]), Step(target, f, events[0]), before, events[1..]);
    }
  }

  lemma {:induction false} ErrorsAppend(a: seq<Event>, b: seq<Event>)
    ensures Errors(a + b) == Errors(a) + Errors(b)
  {
    if a == [] {
      assert a + b == b;
    } else {
      assert (a + b)[1..] == a[1..] + b;
      ErrorsAppend(a[1..], b);
    }
  }

  /** A run that goes on after an error went on before it. */
  lemma GoesOn(target: string, before: seq<Event>, position: nat)
    requires Tolerable(NO_POSITION, 0, Errors(before) + [position])
    ensures var m := Run(target, Init(None), before);
            m.halt == Going && m.room == None && m.malformed == |Errors(before)|
              && Step(target, m, Bad(position)).halt == Going
  {
    var m := Run(target, Init(None), before);
    assert Errors([Bad(position)]) == [position];
    ErrorsAppend(before, [Bad(position)]);
    Budget(target, Init(None), before + [Bad(position)]);
    Budget(target, Init(None), before);
    RunAppend(target, Init(None), before, [Bad(position)]);
    assert [Bad(position)][1..] == [];
    if m.halt != Going {
      HaltedStays(target, m, [Bad(position)]);
    }
  }

  /** No record mixes events from both sides of a tolerated error: after it the output is that
      of a parser which never saw what came before, only how many errors there were. */
  lemma ErrorForgets(target: string, before: seq<Event>, position: nat, after: seq<Event>)
    requires Tolerable(NO_POSITION, 0, Errors(before) + [position])
    ensures Run(target, Init(None), before + [Bad(position)] + after).out
         == Run(target, Init(None), before).out + Run(target, Resyncing(|Errors(before)| + 1, position), after).out
  {
    GoesOn(target, before, position);
    var m := Run(target, Init(None), before);
    RunAppend(target, Init(None), before + [Bad(position)], after);
    RunAppend(target, Init(None), before, [Bad(position)]);
    assert [Bad(position)][1..] == [];
    AlikeRun(target, Step(target, m, Bad(position)), Resyncing(m.malformed + 1, position), m.out, after);
  }
}
