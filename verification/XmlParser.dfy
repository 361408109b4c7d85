/** The streaming record builder: a depth counter and a stack of open elements, driven by the
    tokenizer's events. `ParseFile` is the loop; `Run` is the same as a state machine. */
module XmlParser {
  import opened Json
  import opened Xml

  const MAX_MALFORMED_RECORDS_PER_FILE: nat := 100

  /** `u64::MAX`: no error seen yet. */
  const NO_POSITION: nat := 0xFFFF_FFFF_FFFF_FFFF

  /** The loop goes on, has ended with Ok because the receiver is gone, or has returned Err. */
  datatype Halt = Going | Stopped | Aborted

  /** `room` is how many more messages the receiver takes before it is gone; None if it stays. */
  datatype Machine = Machine(
    depth: nat,
    stack: seq<Context>,
    inTarget: bool,
    resyncing: bool,
    malformed: nat,
    lastError: nat,
    out: seq<DataMessage>,
    room: Option<nat>,
    halt: Halt)

  function Init(room: Option<nat>): Machine {
    Machine(0, [], false, false, 0, NO_POSITION, [], room, Going)
  }

  // ---- Records ----

  /** The attribute's value if there is one, else the child's, if it is a string. */
  function IdOf(fields: map<string, Value>): string {
    var id := if "@id" in fields then Some(fields["@id"]) else if "id" in fields then Some(fields["id"]) else None;
    if id.Some? && id.value.Str? then id.value.text else "unknown"
  }

  function DropId(fields: map<string, Value>): map<string, Value> {
    if "@id" in fields then fields - {"id"} else fields
  }

  // ---- One event ----

  /** A send: refused once the receiver is gone, and then the loop is left. */
  function Send(m: Machine, message: DataMessage): Machine {
    if m.room == Some(0) then m.(halt := Stopped)
    else m.(out := m.out + [message], room := AfterSend(m.room))
  }

  function AfterSend(room: Option<nat>): Option<nat>
    requires room != Some(0)
  {
    if room.Some? then Some(room.value - 1) else None
  }

  function Step(target: string, m: Machine, e: Event): Machine {
    if m.halt != Going then m
    else if e.Bad? then OnError(m, e.position)
    else if !m.resyncing then OnEvent(target, m, e)
    else if (e.Start? || e.Empty?) && e.name == target then OnEvent(target, m.(resyncing := false, depth := 1), e)
    else m
  }

  /** The half-built record is discarded, unless the file is given up. */
  function OnError(m: Machine, position: nat): Machine {
    if position == m.lastError || m.malformed + 1 > MAX_MALFORMED_RECORDS_PER_FILE
    then m.(malformed := m.malformed + 1, halt := Aborted)
    else m.(malformed := m.malformed + 1, lastError := position, stack := [], inTarget := false, resyncing := true)
  }

  function OnEvent(target: string, m: Machine, e: Event): Machine {
    match e
    case Start(name, attributes) => OnStart(target, m, name, attributes)
    case Empty(name, attributes) => OnEmpty(target, m, name, attributes)
    case End(name) => OnEnd(target, m, name)
    case Data(piece) => OnData(m, piece)
    case _ => m
  }

  function OnStart(target: string, m: Machine, name: string, attributes: seq<Attribute>): Machine {
    var record := name == target && m.depth + 1 == 2;
    var stack := if record then [] else m.stack;
    m.(depth := m.depth + 1, inTarget := m.inTarget || record,
       stack := if m.inTarget || record then stack + [WithAttributes(attributes)] else stack)
  }

  function Closed(m: Machine): Machine {
    m.(depth := if m.depth == 0 then 0 else m.depth - 1)
  }

  function OnEmpty(target: string, m: Machine, name: string, attributes: seq<Attribute>): Machine {
    var value := IntoValue(WithAttributes(attributes));
    if name == target && m.depth + 1 == 2 then
      var sent := if value.Obj? then Send(m.(stack := []), DataMessage(IdOf(value.fields), value)) else m.(stack := []);
      if sent.halt != Going then sent else sent.(inTarget := false)
    else if m.inTarget && m.stack != [] then m.(stack := ToParent(m.stack, name, value))
    else m
  }

  function ToParent(stack: seq<Context>, name: string, value: Value): seq<Context>
    requires stack != []
  {
    var parent := stack[|stack| - 1];
    stack[..|stack| - 1] + [parent.(children := AddChild(parent.children, name, value))]
  }

  function OnEnd(target: string, m: Machine, name: string): Machine {
    if !m.inTarget || m.stack == [] then Closed(m)
    else
      var value := IntoValue(m.stack[|m.stack| - 1]);
      var rest := m.stack[..|m.stack| - 1];
      if name == target && m.depth == 2 then
        var sent :=
          if value.Obj? then Send(m.(stack := rest), DataMessage(IdOf(value.fields), Obj(DropId(value.fields))))
          else m.(stack := rest);
        if sent.halt != Going then sent else Closed(sent.(inTarget := false))
      else Closed(m.(stack := if rest == [] then rest else ToParent(rest, name, value)))
  }

  function OnData(m: Machine, piece: Piece): Machine {
    if !m.inTarget || m.stack == [] then m
    else m.(stack := AddText(m.stack, piece))
  }

  function AddText(stack: seq<Context>, piece: Piece): seq<Context>
    requires stack != []
  {
    var top := stack[|stack| - 1];
    stack[..|stack| - 1] + [top.(text := top.text + PieceText(piece))]
  }

  function Run(target: string, m: Machine, events: seq<Event>): Machine
    decreases |events|
  {
    if events == [] then m else Run(target, Step(target, m, events[0]), events[1..])
  }

  lemma {:induction false} HaltedStays(target: string, m: Machine, events: seq<Event>)
    requires m.halt != Going
    ensures Run(target, m, events) == m
    decreases |events|
  {
    if events != [] {
      HaltedStays(target, m, events[1..]);
    }
  }

  lemma {:induction false} RunAppend(target: string, m: Machine, a: seq<Event>, b: seq<Event>)
    ensures Run(target, m, a + b) == Run(target, Run(target, m, a), b)
    decreases |a|
  {
    if a == [] {
      assert a + b == b;
    } else {
      assert (a + b)[1..] == a[1..] + b;
      RunAppend(target, Step(target, m, a[0]), a[1..], b);
    }
  }

  // ---- The loop ----

  /** The file's events up to its end, in the loop's own form: Ok with the number of records
      sent, or Err. A stack entry is owned by the stack, so it is a value. */
  method ParseFile(target: string, events: seq<Event>, room: Option<nat>)
      returns (ok: bool, recordCount: nat, sent: seq<DataMessage>)
    ensures var m := Run(target, Init(room), events);
            sent == m.out && recordCount == |sent| && (ok <==> m.halt != Aborted)
  {
    sent, recordCount := [], 0;
    var depth: nat, inTarget, elementStack := 0, false, [];
    var malformedRecords, resyncing, lastErrorPosition := 0, false, NO_POSITION;
    var left := room;
    ghost var m := Init(room);
    for i := 0 to |events|
      invariant recordCount == |sent|
      invariant m == Machine(depth, elementStack, inTarget, resyncing, malformedRecords, lastErrorPosition, sent,
                             left, Going)
      invariant Run(target, m, events[i..]) == Run(target, Init(room), events)
    {
      m := Advance(target, m, events, i);
      var event := events[i];
      if event.Bad? {
        malformedRecords := malformedRecords + 1;
        if event.position == lastErrorPosition || malformedRecords > MAX_MALFORMED_RECORDS_PER_FILE {
          return false, recordCount, sent;
        }
        lastErrorPosition, elementStack, inTarget, resyncing := event.position, [], false, true;
        continue;
      }
      if resyncing {
        if !((event.Start? || event.Empty?) && event.name == target) {
          continue;
        }
        resyncing, depth := false, 1;
      }
      match event
      case Start(name, attributes) =>
        depth := depth + 1;
        if name == target && depth == 2 {
          inTarget, elementStack := true, [];
        }
        if inTarget {
          elementStack := elementStack + [WithAttributes(attributes)];
        }
      case Empty(name, attributes) =>
        var value := IntoValue(WithAttributes(attributes));
        if name == target && depth + 1 == 2 {
          elementStack := [];
          if value.Obj? {
            if left == Some(0) {
              return true, recordCount, sent;
            }
            left := AfterSend(left);
            sent, recordCount := sent + [DataMessage(IdOf(value.fields), value)], recordCount + 1;
          }
          inTarget := false;
        } else if inTarget && elementStack != [] {
          elementStack := ToParent(elementStack, name, value);
        }
      case End(name) =>
        if inTarget && elementStack != [] {
          var value := IntoValue(elementStack[|elementStack| - 1]);
          elementStack := elementStack[..|elementStack| - 1];
          if name == target && depth == 2 {
            if value.Obj? {
              if left == Some(0) {
                return true, recordCount, sent;
              }
              left := AfterSend(left);
              sent, recordCount := sent + [DataMessage(IdOf(value.fields), Obj(DropId(value.fields)))], recordCount + 1;
            }
            inTarget := false;
          } else if elementStack != [] {
            elementStack := ToParent(elementStack, name, value);
          }
        }
        depth := if depth == 0 then 0 else depth - 1;
      case Data(piece) =>
        if inTarget && elementStack != [] {
          elementStack := AddText(elementStack, piece);
        }
      case Other =>
    }
    ok := true;
  }

  /** The state after event i; the last one, if it is halted. */
  ghost function Advance(target: string, m: Machine, events: seq<Event>, i: nat): (m': Machine)
    requires i < |events|
    ensures m' == Step(target, m, events[i])
    ensures Run(target, m', events[i + 1..]) == Run(target, m, events[i..])
    ensures m'.halt != Going ==> Run(target, m, events[i..]) == m'
  {
    var m' := Step(target, m, events[i]);
    assert events[i..][1..] == events[i + 1..];
    if m'.halt != Going then
      HaltedStays(target, m', events[i + 1..]);
      m'
    else m'
  }
}
