/** XML elements, the events a tokenizer makes of them, and two ways from an element to a JSON
    value: the accumulating context that the parser keeps per open element, and a recursive
    converter that reads an element as a whole. */
module Xml {
  import opened Json
  import opened Strings

  datatype Attribute = Attribute(key: string, value: string)

  /** Names, attribute values and text are as the tokenizer delivers them, unescaped. A `Misc`
      is a comment, a processing instruction or a declaration. */
  datatype Node =
    | Elem(name: string, attributes: seq<Attribute>, children: seq<Node>)
    | EmptyElem(name: string, attributes: seq<Attribute>)
    | Text(piece: Piece)
    | Misc

  /** Character data: text or CDATA, an entity reference, or a character reference, which may
      not name a character. */
  datatype Piece = Chars(chars: string) | Entity(entity: string) | CharRef(resolved: Option<char>)

  datatype Event =
    | Start(name: string, attributes: seq<Attribute>)
    | Empty(name: string, attributes: seq<Attribute>)
    | End(name: string)
    | Data(piece: Piece)
    | Other
    | Bad(position: nat) // the tokenizer reports an error at this offset

  predicate IsElement(n: Node) {
    n.Elem? || n.EmptyElem?
  }

  /** What a piece of character data adds to the text of its element. An entity the parser does
      not know stays as it was written. */
  function PieceText(piece: Piece): string {
    match piece
    case Chars(chars) => chars
    case CharRef(resolved) => [if resolved.Some? then resolved.value else '\U{FFFD}']
    case Entity(entity) =>
      if entity == "amp" then "&"
      else if entity == "lt" then "<"
      else if entity == "gt" then ">"
      else if entity == "apos" then "\'"
      else if entity == "quot" then "\""
      else "&" + entity + ";"
  }

  /** The text is not all white space. */
  predicate HasText(text: string) {
    Trim(text) != ""
  }

  // ---- The events of a tree ----

  function Events(n: Node): seq<Event>
    decreases n
  {
    match n
    case Elem(name, attributes, children) => [Start(name, attributes)] + EventsOf(children) + [End(name)]
    case EmptyElem(name, attributes) => [Empty(name, attributes)]
    case Text(piece) => [Data(piece)]
    case Misc => [Other]
  }

  function EventsOf(nodes: seq<Node>): seq<Event>
    decreases nodes
  {
    if nodes == [] then [] else Events(nodes[0]) + EventsOf(nodes[1..])
  }

  lemma OneNode(n: Node)
    ensures EventsOf([n]) == Events(n)
  {
    assert [n][1..] == [];
  }

  // ---- The accumulating context ----

  datatype Context = Context(attributes: map<string, string>, children: map<string, Value>, text: string)

  /** Attributes as they are inserted: a later one replaces an earlier one of the same key. */
  function AttributeMap(attributes: seq<Attribute>): map<string, string> {
    if attributes == [] then map[]
    else
      var k := |attributes| - 1;
      AttributeMap(attributes[..k])[attributes[k].key := attributes[k].value]
  }

  function WithAttributes(attributes: seq<Attribute>): Context {
    Context(AttributeMap(attributes), map[], "")
  }

  function AtKeys(attributes: map<string, string>): set<string> {
    set k | k in attributes :: "@" + k
  }

  function AtFields(attributes: map<string, string>): map<string, Value> {
    map key | key in AtKeys(attributes) :: Str(attributes[key[1..]])
  }

  function IntoValue(ctx: Context): Value {
    var result := AtFields(ctx.attributes);
    var hasText := HasText(ctx.text);
    if ctx.children == map[] && result == map[] && hasText then Str(ctx.text)
    else
      var withText := if hasText then result["#text" := Str(ctx.text)] else result;
      var all := withText + ctx.children;
      if all == map[] && hasText then Str(ctx.text)
      else if all == map[] then Null
      else Obj(all)
  }

  /** A second child of the same name turns the value into an array, a later one is appended. */
  function AddChild(children: map<string, Value>, name: string, value: Value): map<string, Value> {
    if name !in children then children[name := value]
    else
      match children[name]
      case Arr(items) => children[name := Arr(items + [value])]
      case single => children[name := Arr([single, value])]
  }

  // ---- The recursive converter ----

  datatype Child = Child(name: string, value: Value)

  function TextOf(nodes: seq<Node>): string {
    if nodes == [] then ""
    else (if nodes[0].Text? then PieceText(nodes[0].piece) else "") + TextOf(nodes[1..])
  }

  /** The values of the children of this name, in document order. */
  function Named(children: seq<Child>, name: string): seq<Value> {
    if children == [] then []
    else (if children[0].name == name then [children[0].value] else []) + Named(children[1..], name)
  }

  function Names(children: seq<Child>): set<string> {
    set i | 0 <= i < |children| :: children[i].name
  }

  /** One occurrence stands for itself, several are an array. */
  function Group(values: seq<Value>): Value {
    if |values| == 1 then values[0] else Arr(values)
  }

  function Grouped(children: seq<Child>): map<string, Value> {
    map name | name in Names(children) :: Group(Named(children, name))
  }

  /** Plain text, nothing at all, or an object of attributes, text and children. */
  function Shape(attributes: map<string, string>, text: string, children: map<string, Value>): Value {
    if attributes == map[] && children == map[] then (if HasText(text) then Str(text) else Null)
    else Obj(AtFields(attributes) + (if HasText(text) then map["#text" := Str(text)] else map[]) + children)
  }

  function Convert(n: Node): Value
    decreases n
  {
    match n
    case Elem(_, attributes, children) => Shape(AttributeMap(attributes), TextOf(children), Grouped(Children(children)))
    case EmptyElem(_, attributes) => Shape(AttributeMap(attributes), "", map[])
    case _ => Null
  }

  function Children(nodes: seq<Node>): seq<Child>
    decreases nodes
  {
    if nodes == [] then []
    else (if IsElement(nodes[0]) then [Child(nodes[0].name, Convert(nodes[0]))] else []) + Children(nodes[1..])
  }

  // ---- The two agree ----

  lemma AtFieldsEmpty(attributes: map<string, string>)
    ensures AtFields(attributes) == map[] <==> attributes == map[]
  {
    if attributes != map[] {
      var k :| k in attributes;
      assert "@" + k in AtFields(attributes);
    }
  }

  /** Inserting the text is adding a map that holds only it. */
  lemma WithText(at: map<string, Value>, text: string)
    ensures at["#text" := Str(text)] == at + map["#text" := Str(text)]
    ensures at + map[] == at
  {
  }

  lemma SumEmpty(a: map<string, Value>, b: map<string, Value>)
    ensures a + b == map[] <==> a == map[] && b == map[]
  {
    if a != map[] {
      var k :| k in a;
      assert k in a + b;
    }
    if b != map[] {
      var k :| k in b;
      assert k in a + b;
    }
  }

  lemma IntoValueIsShape(ctx: Context)
    ensures IntoValue(ctx) == Shape(ctx.attributes, ctx.text, ctx.children)
  {
    AtFieldsEmpty(ctx.attributes);
    var at := AtFields(ctx.attributes);
    WithText(at, ctx.text);
    if HasText(ctx.text) {
      SumEmpty(at, map["#text" := Str(ctx.text)]);
      SumEmpty(at["#text" := Str(ctx.text)], ctx.children);
    } else {
      SumEmpty(at, ctx.children);
    }
  }

  /** Adding children one by one, as the parser does. */
  function AddAll(children: map<string, Value>, added: seq<Child>): map<string, Value>
    decreases |added|
  {
    if added == [] then children
    else AddAll(AddChild(children, added[0].name, added[0].value), added[1..])
  }

  /** No value is an array itself: so an array can only be a group. */
  predicate Plain(children: seq<Child>) {
    forall i :: 0 <= i < |children| ==> !children[i].value.Arr?
  }

  lemma {:induction false} NamedLast(children: seq<Child>, last: Child, name: string)
    ensures Named(children + [last], name) == Named(children, name) + (if last.name == name then [last.value] else [])
  {
    if children != [] {
      assert (children + [last])[1..] == children[1..] + [last];
      NamedLast(children[1..], last, name);
    }
  }

  lemma {:induction false} NamedEmpty(children: seq<Child>, name: string)
    ensures Named(children, name) == [] <==> name !in Names(children)
  {
    if children != [] {
      NamedEmpty(children[1..], name);
      if name in Names(children[1..]) {
        var i :| 0 <= i < |children[1..]| && children[1..][i].name == name;
        assert children[i + 1].name == name;
      }
      if name in Names(children) && children[0].name != name {
        var i :| 0 <= i < |children| && children[i].name == name;
        assert children[1..][i - 1].name == name;
      }
    }
  }

  lemma {:induction false} NamedPlain(children: seq<Child>, name: string)
    requires Plain(children)
    ensures forall v :: v in Named(children, name) ==> !v.Arr?
  {
    if children != [] {
      NamedPlain(children[1..], name);
    }
  }

  lemma NamesLast(children: seq<Child>, last: Child)
    ensures Names(children + [last]) == Names(children) + {last.name}
  {
    var more := children + [last];
    forall i | 0 <= i < |children| ensures children[i].name in Names(more) {
      assert more[i].name == children[i].name;
    }
    assert more[|children|].name == last.name;
  }

  /** One more child changes the group of its own name only. */
  lemma OtherGroups(children: seq<Child>, last: Child, name: string)
    requires name in Names(children) && name != last.name
    ensures Named(children + [last], name) == Named(children, name)
  {
    NamedLast(children, last, name);
  }

  lemma GroupGrows(values: seq<Value>, v: Value)
    requires values != [] && !values[0].Arr?
    ensures Group(values + [v])
            == if Group(values).Arr? then Arr(Group(values).items + [v]) else Arr([Group(values), v])
  {
    if |values| == 1 {
      assert values + [v] == [values[0], v];
    }
  }

  lemma OwnGroup(children: seq<Child>, last: Child)
    requires Plain(children)
    ensures AddChild(Grouped(children), last.name, last.value)
            == Grouped(children)[last.name := Group(Named(children + [last], last.name))]
  {
    var values := Named(children, last.name);
    NamedLast(children, last, last.name);
    NamedEmpty(children, last.name);
    if values != [] {
      NamedPlain(children, last.name);
      assert values[0] in values;
      GroupGrows(values, last.value);
      assert Grouped(children)[last.name] == Group(values);
    } else {
      assert values + [last.value] == [last.value];
    }
  }

  /** A map that holds each name's group is the grouping. */
  lemma GroupsAgree(children: seq<Child>, groups: map<string, Value>)
    requires groups.Keys == Names(children)
             && forall name :: name in groups ==> groups[name] == Group(Named(children, name))
    ensures groups == Grouped(children)
  {
  }

  /** Grouping so far and one more child. */
  lemma GroupedLast(children: seq<Child>, last: Child)
    requires Plain(children)
    ensures Grouped(children + [last]) == AddChild(Grouped(children), last.name, last.value)
  {
    OwnGroup(children, last);
    NamesLast(children, last);
    var groups := Grouped(children)[last.name := Group(Named(children + [last], last.name))];
    forall name | name in groups ensures groups[name] == Group(Named(children + [last], name)) {
      if name != last.name {
        OtherGroups(children, last, name);
      }
    }
    GroupsAgree(children + [last], groups);
  }

  lemma {:induction false} AddAllGroups(before: seq<Child>, added: seq<Child>)
    requires Plain(before + added)
    ensures AddAll(Grouped(before), added) == Grouped(before + added)
    decreases |added|
  {
    if added == [] {
      assert before + added == before;
    } else {
      assert Plain(before) by {
        forall i | 0 <= i < |before| ensures !before[i].value.Arr? {
          assert (before + added)[i] == before[i];
        }
      }
      GroupedLast(before, added[0]);
      assert before + [added[0]] + added[1..] == before + added;
      AddAllGroups(before + [added[0]], added[1..]);
    }
  }

  lemma {:induction false} ChildrenPlain(nodes: seq<Node>)
    ensures Plain(Children(nodes))
  {
    if nodes != [] {
      ChildrenPlain(nodes[1..]);
      ShapeIsPlain(nodes[0]);
    }
  }

  lemma ShapeIsPlain(n: Node)
    ensures !Convert(n).Arr?
  {
  }

  /** Grouping equal names at once is adding the children one by one. */
  lemma AddAllIsGrouped(nodes: seq<Node>)
    ensures AddAll(map[], Children(nodes)) == Grouped(Children(nodes))
  {
    ChildrenPlain(nodes);
    assert [] + Children(nodes) == Children(nodes);
    assert Grouped([]) == map[];
    AddAllGroups([], Children(nodes));
  }
}
