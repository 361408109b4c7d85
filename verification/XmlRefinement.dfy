/** On the events of a tree the stack machine does what the recursive converter says. */
module XmlRefinement {
  import opened Json
  import opened Xml
  import opened XmlParser

  // ---- The reference: what a document's records are ----

  /** The message for a record: its id, and its value without an `id` beside `@id`. */
  function Record(fields: map<string, Value>): DataMessage {
    DataMessage(IdOf(fields), Obj(DropId(fields)))
  }

  /** The records among sibling nodes: the target elements whose value is an object. */
  function RecordsOf(target: string, nodes: seq<Node>): seq<DataMessage> {
    if nodes == [] then []
    else
      var first := nodes[0];
      (if IsElement(first) && first.name == target && Convert(first).Obj? then [Record(Convert(first).fields)] else [])
      + RecordsOf(target, nodes[1..])
  }

  /** The records of a document: the target elements right below its root element. */
  function DocumentRecords(target: string, nodes: seq<Node>): seq<DataMessage> {
    if nodes == [] then []
    else (if nodes[0].Elem? then RecordsOf(target, nodes[0].children) else []) + DocumentRecords(target, nodes[1..])
  }

  function Emitting(m: Machine, records: seq<DataMessage>): Machine {
    m.(out := m.out + records)
  }

  lemma EmittingTwice(m: Machine, a: seq<DataMessage>, b: seq<DataMessage>)
    ensures Emitting(Emitting(m, a), b) == Emitting(m, a + b)
    ensures Emitting(m, []) == m
  {
    assert m.out + a + b == m.out + (a + b);
    assert m.out + [] == m.out;
  }

  /** The run over a forest, tree by tree. */
  lemma RunCons(target: string, m: Machine, nodes: seq<Node>, m': Machine, m'': Machine)
    requires nodes != []
    requires Run(target, m, Events(nodes[0])) == m' && Run(target, m', EventsOf(nodes[1..])) == m''
    ensures Run(target, m, EventsOf(nodes)) == m''
  {
    RunAppend(target, m, Events(nodes[0]), EventsOf(nodes[1..]));
  }

  // ---- Inside a record ----

  ghost predicate Building(m: Machine) {
    m.halt == Going && !m.resyncing && m.inTarget && m.stack != [] && m.depth >= 2
  }

  function Taking(ctx: Context, children: seq<Child>, text: string): Context {
    ctx.(children := AddAll(ctx.children, children), text := ctx.text + text)
  }

  /** The innermost open element has taken in these nodes. */
  function Filled(stack: seq<Context>, nodes: seq<Node>): seq<Context>
    requires stack != []
  {
    stack[..|stack| - 1] + [Taking(stack[|stack| - 1], Children(nodes), TextOf(nodes))]
  }

  lemma TakingTwice(ctx: Context, a: seq<Child>, s: string, b: seq<Child>, t: string)
    ensures Taking(Taking(ctx, a, s), b, t) == Taking(ctx, a + b, s + t)
  {
    AddAllAppend(ctx.children, a, b);
    assert ctx.text + s + t == ctx.text + (s + t);
  }

  lemma FilledNone(stack: seq<Context>)
    requires stack != []
    ensures Filled(stack, []) == stack
  {
    var top := stack[|stack| - 1];
    assert top.text + "" == top.text;
  }

  lemma OneChild(n: Node)
    ensures Children([n]) == if IsElement(n) then [Child(n.name, Convert(n))] else []
    ensures TextOf([n]) == if n.Text? then PieceText(n.piece) else ""
  {
    assert [n][1..] == [];
  }

  lemma FilledOne(stack: seq<Context>, n: Node)
    requires stack != []
    ensures IsElement(n) ==> Filled(stack, [n]) == ToParent(stack, n.name, Convert(n))
    ensures n.Text? ==> Filled(stack, [n]) == AddText(stack, n.piece)
    ensures n.Misc? ==> Filled(stack, [n]) == stack
  {
    OneChild(n);
    var top := stack[|stack| - 1];
    assert top.text + "" == top.text;
    if IsElement(n) {
      var one := [Child(n.name, Convert(n))];
      assert one[1..] == [];
      assert AddAll(top.children, one) == AddAll(AddChild(top.children, n.name, Convert(n)), one[1..]);
    }
  }

  /** Filling with the first node and then with the rest. */
  lemma FilledCons(stack: seq<Context>, nodes: seq<Node>)
    requires stack != [] && nodes != []
    ensures Filled(Filled(stack, [nodes[0]]), nodes[1..]) == Filled(stack, nodes)
  {
    OneChild(nodes[0]);
    TakingTwice(stack[|stack| - 1], Children([nodes[0]]), TextOf([nodes[0]]), Children(nodes[1..]), TextOf(nodes[1..]));
    assert Filled(stack, [nodes[0]])[..|stack| - 1] == stack[..|stack| - 1];
  }

  lemma {:induction false} AddAllAppend(children: map<string, Value>, a: seq<Child>, b: seq<Child>)
    ensures AddAll(children, a + b) == AddAll(AddAll(children, a), b)
    decreases |a|
  {
    if a == [] {
      assert a + b == b;
    } else {
      assert (a + b)[1..] == a[1..] + b;
      AddAllAppend(AddChild(children, a[0].name, a[0].value), a[1..], b);
    }
  }

  /** A finished context is the converted element. */
  lemma ContextConverts(n: Node)
    requires n.Elem?
    ensures IntoValue(Filled([WithAttributes(n.attributes)], n.children)[0]) == Convert(n)
  {
    var ctx := Filled([WithAttributes(n.attributes)], n.children)[0];
    IntoValueIsShape(ctx);
    AddAllIsGrouped(n.children);
    assert "" + TextOf(n.children) == TextOf(n.children);
  }

  lemma EmptyConverts(n: Node)
    requires n.EmptyElem?
    ensures IntoValue(WithAttributes(n.attributes)) == Convert(n)
  {
    IntoValueIsShape(WithAttributes(n.attributes));
  }

  /** The nodes inside a record end up in its innermost open element; nothing else changes,
      also when they hold elements of the target's name. */
  lemma {:induction false} InsideRecord(target: string, m: Machine, nodes: seq<Node>)
    requires Building(m)
    ensures Run(target, m, EventsOf(nodes)) == m.(stack := Filled(m.stack, nodes))
    decreases nodes
  {
    if nodes == [] {
      FilledNone(m.stack);
    } else {
      NodeInside(target, m, nodes[0]);
      RunAppend(target, m, Events(nodes[0]), EventsOf(nodes[1..]));
      InsideRecord(target, m.(stack := Filled(m.stack, [nodes[0]])), nodes[1..]);
      FilledCons(m.stack, nodes);
    }
  }

  lemma {:induction false} NodeInside(target: string, m: Machine, n: Node)
    requires Building(m)
    ensures Run(target, m, Events(n)) == m.(stack := Filled(m.stack, [n]))
    decreases n
  {
    if n.Elem? {
      ElementInside(target, m, n);
    } else {
      assert Events(n)[1..] == [];
      if n.EmptyElem? {
        EmptyInside(target, m, n);
      } else {
        DataInside(target, m, n);
      }
    }
  }

  lemma EmptyInside(target: string, m: Machine, n: Node)
    requires Building(m) && n.EmptyElem?
    ensures Step(target, m, Empty(n.name, n.attributes)) == m.(stack := Filled(m.stack, [n]))
  {
    EmptyConverts(n);
    FilledOne(m.stack, n);
  }

  lemma DataInside(target: string, m: Machine, n: Node)
    requires Building(m) && !IsElement(n)
    ensures Step(target, m, Events(n)[0]) == m.(stack := Filled(m.stack, [n]))
  {
    FilledOne(m.stack, n);
  }

  lemma {:induction false} ElementInside(target: string, m: Machine, n: Node)
    requires Building(m) && n.Elem?
    ensures Run(target, m, Events(n)) == m.(stack := Filled(m.stack, [n]))
    decreases n, 0
  {
    var entered := Opened(target, m, n);
    InsideRecord(target, entered, n.children);
    var filled := entered.(stack := Filled(entered.stack, n.children));
    ElementRun(target, m, n, entered, filled);
    assert entered.stack == m.stack + [WithAttributes(n.attributes)];
    ElementCloses(target, m, n, filled);
  }

  lemma ElementCloses(target: string, m: Machine, n: Node, filled: Machine)
    requires Building(m) && n.Elem?
    requires filled == m.(depth := m.depth + 1, stack := Filled(m.stack + [WithAttributes(n.attributes)], n.children))
    ensures Step(target, filled, End(n.name)) == m.(stack := Filled(m.stack, [n]))
  {
    TopConverts(m.stack, n);
    FilledOne(m.stack, n);
  }

  lemma TopConverts(stack: seq<Context>, n: Node)
    requires n.Elem?
    ensures var filled := Filled(stack + [WithAttributes(n.attributes)], n.children);
            |filled| == |stack| + 1 && filled[..|stack|] == stack && IntoValue(filled[|stack|]) == Convert(n)
  {
    ContextConverts(n);
  }

  ghost function Opened(target: string, m: Machine, n: Node): Machine
    requires n.Elem?
  {
    Step(target, m, Start(n.name, n.attributes))
  }

  /** An element's run: its start, its content, its end. */
  lemma ElementRun(target: string, m: Machine, n: Node, entered: Machine, filled: Machine)
    requires n.Elem? && entered == Opened(target, m, n) && Run(target, entered, EventsOf(n.children)) == filled
    ensures Run(target, m, Events(n)) == Step(target, filled, End(n.name))
  {
    var content := EventsOf(n.children);
    assert Events(n) == [Start(n.name, n.attributes)] + (content + [End(n.name)]);
    assert Events(n)[1..] == content + [End(n.name)];
    RunAppend(target, entered, content, [End(n.name)]);
    assert [End(n.name)][1..] == [];
  }

  // ---- Outside a record ----

  /** Below the record level, in an element that is not a record, nothing is taken in. */
  lemma {:induction false} OutsideRecord(target: string, m: Machine, nodes: seq<Node>)
    requires m.halt == Going && !m.resyncing && !m.inTarget && m.depth >= 2
    ensures Run(target, m, EventsOf(nodes)) == m
    decreases nodes
  {
    if nodes != [] {
      NodeOutside(target, m, nodes[0]);
      RunAppend(target, m, Events(nodes[0]), EventsOf(nodes[1..]));
      OutsideRecord(target, m, nodes[1..]);
    }
  }

  lemma {:induction false} NodeOutside(target: string, m: Machine, n: Node)
    requires m.halt == Going && !m.resyncing && !m.inTarget && m.depth >= 2
    ensures Run(target, m, Events(n)) == m
    decreases n
  {
    if n.Elem? {
      var entered := Opened(target, m, n);
      OutsideRecord(target, entered, n.children);
      ElementRun(target, m, n, entered, entered);
    } else {
      assert Events(n)[1..] == [];
    }
  }

  // ---- At record level ----

  /** Between two records. */
  ghost predicate Ready(m: Machine) {
    m.halt == Going && !m.resyncing && !m.inTarget && m.stack == [] && m.room == None
  }

  /** One record, or another element, or something between them. */
  lemma AtRecordLevel(target: string, m: Machine, n: Node)
    requires Ready(m) && m.depth == 1
    ensures Run(target, m, Events(n)) == Emitting(m, RecordsOf(target, [n]))
  {
    assert [n][1..] == [];
    if !n.Elem? {
      assert Events(n)[1..] == [];
      if n.EmptyElem? {
        EmptyRecord(target, m, n);
      }
    } else if n.name == target {
      WholeRecord(target, m, n);
    } else {
      var entered := Opened(target, m, n);
      OutsideRecord(target, entered, n.children);
      ElementRun(target, m, n, entered, entered);
    }
  }

  /** A self-closing record has no child, so no `id` to drop. */
  lemma EmptyRecord(target: string, m: Machine, n: Node)
    requires Ready(m) && m.depth == 1 && n.EmptyElem?
    ensures Step(target, m, Empty(n.name, n.attributes)) == Emitting(m, RecordsOf(target, [n]))
  {
    EmptyConverts(n);
    if Convert(n).Obj? {
      var fields := Convert(n).fields;
      assert "id"[0] != '@';
      assert "id" !in fields;
      assert fields - {"id"} == fields;
    }
  }

  lemma OneRecord(target: string, n: Node)
    requires n.Elem? && n.name == target
    ensures RecordsOf(target, [n]) == if Convert(n).Obj? then [Record(Convert(n).fields)] else []
  {
    assert [n][1..] == [];
  }

  lemma RecordCloses(target: string, m: Machine, n: Node, filled: Machine)
    requires Ready(m) && m.depth == 1 && n.Elem? && n.name == target
    requires filled == m.(depth := 2, inTarget := true, stack := Filled([WithAttributes(n.attributes)], n.children))
    ensures Step(target, filled, End(n.name)) == Emitting(m, RecordsOf(target, [n]))
  {
    TopConverts([], n);
    assert [] + [WithAttributes(n.attributes)] == [WithAttributes(n.attributes)];
    assert filled.stack[..0] == [];
    OneRecord(target, n);
    EmittingTwice(m, [], []);
  }

  lemma WholeRecord(target: string, m: Machine, n: Node)
    requires Ready(m) && m.depth == 1 && n.Elem? && n.name == target
    ensures Run(target, m, Events(n)) == Emitting(m, RecordsOf(target, [n]))
  {
    var entered := m.(depth := 2, inTarget := true, stack := [WithAttributes(n.attributes)]);
    assert Opened(target, m, n) == entered;
    InsideRecord(target, entered, n.children);
    var filled := entered.(stack := Filled(entered.stack, n.children));
    ElementRun(target, m, n, entered, filled);
    RecordCloses(target, m, n, filled);
  }

  lemma RecordsCons(target: string, nodes: seq<Node>)
    requires nodes != []
    ensures RecordsOf(target, nodes) == RecordsOf(target, [nodes[0]]) + RecordsOf(target, nodes[1..])
  {
    assert [nodes[0]][1..] == [];
  }

  lemma {:induction false} RecordLevel(target: string, m: Machine, nodes: seq<Node>)
    requires Ready(m) && m.depth == 1
    ensures Run(target, m, EventsOf(nodes)) == Emitting(m, RecordsOf(target, nodes))
    decreases |nodes|
  {
    if nodes == [] {
      EmittingTwice(m, [], []);
    } else {
      var first, rest := RecordsOf(target, [nodes[0]]), RecordsOf(target, nodes[1..]);
      AtRecordLevel(target, m, nodes[0]);
      RecordLevel(target, Emitting(m, first), nodes[1..]);
      RunCons(target, m, nodes, Emitting(m, first), Emitting(Emitting(m, first), rest));
      RecordsCons(target, nodes);
      EmittingTwice(m, first, rest);
    }
  }

  // ---- The document ----

  /** At the top there is the root element, and around it comments and declarations. */
  lemma {:induction false} TopLevel(target: string, m: Machine, nodes: seq<Node>)
    requires Ready(m) && m.depth == 0
    ensures Run(target, m, EventsOf(nodes)) == Emitting(m, DocumentRecords(target, nodes))
    decreases |nodes|
  {
    if nodes == [] {
      EmittingTwice(m, [], []);
    } else {
      var first, rest := DocumentRecords(target, [nodes[0]]), DocumentRecords(target, nodes[1..]);
      AtTop(target, m, nodes[0]);
      TopLevel(target, Emitting(m, first), nodes[1..]);
      RunCons(target, m, nodes, Emitting(m, first), Emitting(Emitting(m, first), rest));
      DocumentCons(target, nodes);
      EmittingTwice(m, first, rest);
    }
  }

  lemma DocumentCons(target: string, nodes: seq<Node>)
    requires nodes != []
    ensures DocumentRecords(target, nodes) == DocumentRecords(target, [nodes[0]]) + DocumentRecords(target, nodes[1..])
  {
    assert [nodes[0]][1..] == [];
  }

  lemma AtTop(target: string, m: Machine, n: Node)
    requires Ready(m) && m.depth == 0
    ensures Run(target, m, Events(n)) == Emitting(m, DocumentRecords(target, [n]))
  {
    assert [n][1..] == [];
    if n.Elem? {
      var entered := Opened(target, m, n);
      RecordLevel(target, entered, n.children);
      ElementRun(target, m, n, entered, Emitting(entered, RecordsOf(target, n.children)));
    } else {
      assert Events(n)[1..] == [];
    }
  }

  /** On the events of any well-formed document the depth-and-stack loop emits exactly the
      recursive conversion of each target element below the root, in document order, and is
      left as it began. */
  lemma StackMachineRefinesRecursion(target: string, document: seq<Node>)
    ensures Run(target, Init(None), EventsOf(document)) == Emitting(Init(None), DocumentRecords(target, document))
  {
    TopLevel(target, Init(None), document);
  }
}
