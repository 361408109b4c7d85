/** What a record's message carries: its id, and the text of its elements. */
module XmlMessages {
  import opened Json
  import opened Strings
  import opened Xml
  import opened XmlRefinement

  // ---- The id of a message ----

  /** The attribute at this position is the last one of its name. */
  predicate IsLast(attributes: seq<Attribute>, i: int, key: string) {
    0 <= i < |attributes| && attributes[i].key == key && forall j :: i < j < |attributes| ==> attributes[j].key != key
  }

  predicate HasAttribute(attributes: seq<Attribute>, key: string) {
    exists i :: 0 <= i < |attributes| && attributes[i].key == key
  }

  lemma {:induction false} LastAttribute(attributes: seq<Attribute>, i: int, key: string)
    requires IsLast(attributes, i, key)
    ensures key in AttributeMap(attributes) && AttributeMap(attributes)[key] == attributes[i].value
  {
    var k := |attributes| - 1;
    if i < k {
      assert attributes[k].key != key;
      assert IsLast(attributes[..k], i, key);
      LastAttribute(attributes[..k], i, key);
    }
  }

  lemma {:induction false} NoAttribute(attributes: seq<Attribute>, key: string)
    ensures key in AttributeMap(attributes) <==> HasAttribute(attributes, key)
  {
    if attributes != [] {
      var k := |attributes| - 1;
      NoAttribute(attributes[..k], key);
      if HasAttribute(attributes[..k], key) {
        var i :| 0 <= i < k && attributes[..k][i].key == key;
        assert attributes[i].key == key;
      }
      if key in AttributeMap(attributes) && attributes[k].key != key {
        var i :| 0 <= i < k && attributes[..k][i].key == key;
        assert attributes[i].key == key;
      }
      if HasAttribute(attributes, key) && attributes[k].key != key {
        var i :| 0 <= i < |attributes| && attributes[i].key == key;
        assert attributes[..k][i].key == key;
      }
    }
  }

  /** The elements of this name among sibling nodes, in document order. */
  function ElementsNamed(nodes: seq<Node>, name: string): seq<Node> {
    if nodes == [] then []
    else (if IsElement(nodes[0]) && nodes[0].name == name then [nodes[0]] else []) + ElementsNamed(nodes[1..], name)
  }

  function ChildrenOf(n: Node): seq<Node> {
    if n.Elem? then n.children else []
  }

  /** An element with text, and neither attributes nor elements. */
  predicate IsPlainText(n: Node) {
    && n.Elem? && n.attributes == [] && HasText(TextOf(n.children))
    && forall i :: 0 <= i < |n.children| ==> !IsElement(n.children[i])
  }

  lemma {:induction false} NamedElements(nodes: seq<Node>, name: string)
    ensures |Named(Children(nodes), name)| == |ElementsNamed(nodes, name)|
    ensures forall i :: 0 <= i < |ElementsNamed(nodes, name)| ==>
              Named(Children(nodes), name)[i] == Convert(ElementsNamed(nodes, name)[i])
  {
    if nodes != [] {
      NamedElements(nodes[1..], name);
      if IsElement(nodes[0]) {
        assert Children(nodes)[1..] == Children(nodes[1..]);
      } else {
        assert Children(nodes) == Children(nodes[1..]);
        assert ElementsNamed(nodes, name) == ElementsNamed(nodes[1..], name);
      }
    }
  }

  lemma {:induction false} NoChildren(nodes: seq<Node>)
    ensures Children(nodes) == [] <==> forall i :: 0 <= i < |nodes| ==> !IsElement(nodes[i])
  {
    if nodes != [] {
      NoChildren(nodes[1..]);
      if Children(nodes) == [] {
        forall i | 0 <= i < |nodes| ensures !IsElement(nodes[i]) {
          assert i > 0 ==> nodes[i] == nodes[1..][i - 1];
        }
      }
    }
  }

  lemma NoNames(children: seq<Child>)
    ensures Grouped(children) == map[] <==> children == []
  {
    if children != [] {
      assert children[0].name in Names(children);
      assert children[0].name in Grouped(children);
    }
  }

  lemma {:induction false} NoKeys(attributes: seq<Attribute>)
    ensures AttributeMap(attributes) == map[] <==> attributes == []
  {
    if attributes != [] {
      var k := |attributes| - 1;
      assert attributes[k].key in AttributeMap(attributes);
    }
  }

  /** An element's value is a string exactly if it is plain text, and then it is that text. */
  lemma TextIffPlain(n: Node)
    requires IsElement(n)
    ensures Convert(n).Str? <==> IsPlainText(n)
    ensures IsPlainText(n) ==> Convert(n) == Str(TextOf(n.children))
  {
    NoKeys(n.attributes);
    if n.Elem? {
      NoNames(Children(n.children));
      NoChildren(n.children);
    } else {
      assert TrimStart("") == "" && !HasText("");
    }
  }

  lemma ShapeFields(attributes: map<string, string>, text: string, children: map<string, Value>, key: string)
    requires Shape(attributes, text, children).Obj? && key != "#text"
    ensures var fields := Shape(attributes, text, children).fields;
            && (key in children ==> key in fields && fields[key] == children[key])
            && (key !in children ==>
                  if key != "" && key[0] == '@' && key[1..] in attributes
                  then key in fields && fields[key] == Str(attributes[key[1..]]) else key !in fields)
  {
    if key != "" && key[0] == '@' && key[1..] in attributes {
      assert "@" + key[1..] == key;
      assert key in AtKeys(attributes);
    }
    if key in AtKeys(attributes) {
      var k :| k in attributes && key == "@" + k;
      assert key[1..] == k;
    }
  }

  /** What is stored for the children of a name. */
  lemma GroupedIs(children: seq<Child>, name: string)
    ensures name in Grouped(children) <==> Named(children, name) != []
    ensures |Named(children, name)| == 1 ==> Grouped(children)[name] == Named(children, name)[0]
    ensures |Named(children, name)| > 1 ==> Grouped(children)[name].Arr?
  {
    NamedEmpty(children, name);
  }

  function MessageId(n: Node): string
    requires IsElement(n) && Convert(n).Obj?
  {
    Record(Convert(n).fields).id
  }

  /** The id that a record is sent with: its `id` attribute, of repeated ones the last; without one,
      the text of its only `id` child, if that is plain text; and "unknown" if there is neither. No
      XML name begins with the mark of an attribute. */
  lemma MessageIdIs(n: Node)
    requires IsElement(n) && Convert(n).Obj? && ElementsNamed(ChildrenOf(n), "@id") == []
    ensures forall i :: IsLast(n.attributes, i, "id") ==> MessageId(n) == n.attributes[i].value
    ensures var ids := ElementsNamed(ChildrenOf(n), "id");
            !HasAttribute(n.attributes, "id") ==>
              MessageId(n) == if |ids| == 1 && IsPlainText(ids[0]) then TextOf(ids[0].children) else "unknown"
  {
    var children := Grouped(Children(ChildrenOf(n)));
    var text := TextOf(ChildrenOf(n));
    assert Convert(n) == Shape(AttributeMap(n.attributes), text, children) by {
      assert Children([]) == [] && Grouped([]) == map[];
    }
    assert "@id"[1..] == "id";
    NamedElements(ChildrenOf(n), "@id");
    NamedElements(ChildrenOf(n), "id");
    GroupedIs(Children(ChildrenOf(n)), "@id");
    GroupedIs(Children(ChildrenOf(n)), "id");
    ShapeFields(AttributeMap(n.attributes), text, children, "@id");
    ShapeFields(AttributeMap(n.attributes), text, children, "id");
    NoAttribute(n.attributes, "id");
    forall i | IsLast(n.attributes, i, "id") ensures MessageId(n) == n.attributes[i].value {
      LastAttribute(n.attributes, i, "id");
    }
    if !HasAttribute(n.attributes, "id") {
      ChildId(n);
    }
  }

  lemma ChildId(n: Node)
    requires IsElement(n) && Convert(n).Obj? && "@id" !in Convert(n).fields
    requires var ids := ElementsNamed(ChildrenOf(n), "id");
             && (ids == [] ==> "id" !in Convert(n).fields)
             && (|ids| == 1 ==> "id" in Convert(n).fields && Convert(n).fields["id"] == Convert(ids[0]))
             && (|ids| > 1 ==> "id" in Convert(n).fields && Convert(n).fields["id"].Arr?)
    ensures var ids := ElementsNamed(ChildrenOf(n), "id");
            MessageId(n) == if |ids| == 1 && IsPlainText(ids[0]) then TextOf(ids[0].children) else "unknown"
  {
    var ids := ElementsNamed(ChildrenOf(n), "id");
    if |ids| == 1 {
      FirstIsElement(ChildrenOf(n), "id");
      TextIffPlain(ids[0]);
    }
  }

  lemma {:induction false} FirstIsElement(nodes: seq<Node>, name: string)
    ensures forall i :: 0 <= i < |ElementsNamed(nodes, name)| ==>
              IsElement(ElementsNamed(nodes, name)[i]) && ElementsNamed(nodes, name)[i].name == name
  {
    if nodes != [] {
      FirstIsElement(nodes[1..], name);
    }
  }

  /** A message holds all that the record's element holds, but no `id` beside its `@id`. */
  lemma MessageDataIs(n: Node, key: string)
    requires IsElement(n) && Convert(n).Obj?
    ensures var fields, data := Convert(n).fields, Record(Convert(n).fields).data.fields;
            && (key in data <==> key in fields && !(key == "id" && "@id" in fields))
            && (key in data ==> data[key] == fields[key])
  {
  }

  // ---- Text ----

  /** A character of a text as XML writes it. */
  function Escaped(c: char): Node {
    if c == '&' then Text(Entity("amp"))
    else if c == '<' then Text(Entity("lt"))
    else if c == '>' then Text(Entity("gt"))
    else if c == '\'' then Text(Entity("apos"))
    else if c == '\"' then Text(Entity("quot"))
    else Text(Chars([c]))
  }

  function EscapedText(text: string): seq<Node> {
    if text == [] then [] else [Escaped(text[0])] + EscapedText(text[1..])
  }

  lemma TextFirst(n: Node, rest: seq<Node>)
    requires n.Text?
    ensures TextOf([n] + rest) == PieceText(n.piece) + TextOf(rest)
  {
    assert ([n] + rest)[1..] == rest;
  }

  lemma EscapedOne(c: char)
    ensures Escaped(c).Text? && PieceText(Escaped(c).piece) == [c]
  {
  }

  /** Every text, written with the five entities for the characters that need them, reads as itself. */
  lemma {:induction false} EscapedReads(text: string)
    ensures TextOf(EscapedText(text)) == text
  {
    if text != [] {
      EscapedReads(text[1..]);
      EscapedOne(text[0]);
      TextFirst(Escaped(text[0]), EscapedText(text[1..]));
    }
  }

  predicate IsKnownEntity(name: string) {
    name == "amp" || name == "lt" || name == "gt" || name == "apos" || name == "quot"
  }

  /** An entity that is none of the five stays as it was written; a character reference gives its
      character, or the replacement character if it has none. */
  lemma OtherPieces(name: string, c: char)
    ensures !IsKnownEntity(name) ==> PieceText(Entity(name)) == "&" + name + ";"
    ensures PieceText(CharRef(Some(c))) == [c] && PieceText(CharRef(None)) == "\U{FFFD}"
  {
  }

  // ---- A record of the dump ----

  function TextElem(name: string, text: string): Node {
    Elem(name, [], [Text(Chars(text))])
  }

  /** An artist with its id as an element, a name, two name variations and an image. */
  function Artist(): Node {
    Elem("artist", [],
         [TextElem("id", "1"), TextElem("name", "A"), Variations(), Image()])
  }

  lemma TextElemConverts(name: string, text: string)
    requires text != "" && !IsWhite(text[0])
    ensures Convert(TextElem(name, text)) == Str(text)
  {
    var n := TextElem(name, text);
    assert n.children[1..] == [] && TextOf(n.children) == text;
    TrimStartStops(text);
    TextHasText(text);
    TextIffPlain(n);
  }

  lemma {:induction false} TextHasText(text: string)
    requires text != "" && !IsWhite(text[0])
    ensures HasText(text)
  {
    TrimEndKeepsFirst(text);
  }

  lemma {:induction false} TrimEndKeepsFirst(text: string)
    requires text != "" && !IsWhite(text[0])
    ensures TrimEnd(text) != ""
  {
    if IsWhite(text[|text| - 1]) {
      TrimEndKeepsFirst(text[..|text| - 1]);
    }
  }

  function Variations(): Node {
    Elem("namevariations", [], [TextElem("name", "B"), TextElem("name", "C")])
  }

  function Image(): Node {
    EmptyElem("image", [Attribute("type", "primary")])
  }

  lemma VariationsConvert()
    ensures Convert(Variations()) == Obj(map["name" := Arr([Str("B"), Str("C")])])
  {
    TextElemConverts("name", "B");
    TextElemConverts("name", "C");
    var nodes := Variations().children;
    assert nodes[1..] == [TextElem("name", "C")] && nodes[1..][1..] == [];
    assert TextOf(nodes) == "";
    var children := [Child("name", Str("B")), Child("name", Str("C"))];
    assert Children(nodes) == children;
    assert children[1..] == [Child("name", Str("C"))] && children[1..][1..] == [];
    assert Named(children, "name") == [Str("B"), Str("C")];
    assert children[0].name in Names(children);
    assert Names(children) == {"name"};
    assert Grouped(children) == map["name" := Arr([Str("B"), Str("C")])];
    assert "name" in Grouped(children);
    OnlyChildren(Variations(), Grouped(children));
  }

  /** An element without attributes and text is an object of its children. */
  lemma OnlyChildren(n: Node, children: map<string, Value>)
    requires n.Elem? && n.attributes == [] && TextOf(n.children) == ""
             && Grouped(Children(n.children)) == children != map[]
    ensures Convert(n) == Obj(children)
  {
    assert !HasText("");
    var none: map<string, Value> := map[];
    assert AtKeys(map[]) == {} && AtFields(map[]) == none;
    assert none + none + children == children;
  }

  lemma ImageConverts()
    ensures Convert(Image()) == Obj(map["@type" := Str("primary")])
  {
    var attributes := Image().attributes;
    assert attributes[..0] == [] && AttributeMap(attributes) == map["type" := "primary"];
    assert !HasText("");
    assert "@" + "type" == "@type" && "@type"[1..] == "type";
    assert AtKeys(map["type" := "primary"]) == {"@type"};
    assert AtFields(map["type" := "primary"]) == map["@type" := Str("primary")];
    var none: map<string, Value> := map[];
    assert map["@type" := Str("primary")] + none + none == map["@type" := Str("primary")];
  }

  function ArtistChildren(): seq<Child> {
    [Child("id", Str("1")), Child("name", Str("A")),
     Child("namevariations", Obj(map["name" := Arr([Str("B"), Str("C")])])),
     Child("image", Obj(map["@type" := Str("primary")]))]
  }

  lemma {:induction false} ElementsOnly(nodes: seq<Node>)
    requires forall i :: 0 <= i < |nodes| ==> IsElement(nodes[i])
    ensures TextOf(nodes) == "" && |Children(nodes)| == |nodes|
    ensures forall i :: 0 <= i < |nodes| ==>
              IsElement(nodes[i]) && Children(nodes)[i] == Child(nodes[i].name, Convert(nodes[i]))
  {
    if nodes != [] {
      ElementsOnly(nodes[1..]);
      ElementIsFirst(nodes);
    }
  }

  lemma ElementIsFirst(nodes: seq<Node>)
    requires nodes != [] && IsElement(nodes[0])
    ensures Children(nodes) == [Child(nodes[0].name, Convert(nodes[0]))] + Children(nodes[1..])
    ensures TextOf(nodes) == TextOf(nodes[1..])
  {
  }

  lemma FourElements(a: Node, b: Node, c: Node, d: Node)
    requires IsElement(a) && IsElement(b) && IsElement(c) && IsElement(d)
    ensures Children([a, b, c, d])
         == [Child(a.name, Convert(a)), Child(b.name, Convert(b)), Child(c.name, Convert(c)), Child(d.name, Convert(d))]
    ensures TextOf([a, b, c, d]) == ""
  {
    ElementsOnly([a, b, c, d]);
  }

  lemma ArtistHasChildren()
    ensures Children(Artist().children) == ArtistChildren() && TextOf(Artist().children) == ""
  {
    var id, name := TextElem("id", "1"), TextElem("name", "A");
    TextElemConverts("id", "1");
    TextElemConverts("name", "A");
    VariationsConvert();
    ImageConverts();
    FourElements(id, name, Variations(), Image());
  }

  /** The object that the artist is sent with. */
  function ArtistData(): map<string, Value> {
    map["id" := Str("1"), "name" := Str("A"),
        "namevariations" := Obj(map["name" := Arr([Str("B"), Str("C")])]),
        "image" := Obj(map["@type" := Str("primary")])]
  }

  lemma ArtistNames()
    ensures Names(ArtistChildren()) == {"id", "name", "namevariations", "image"}
  {
    var children := ArtistChildren();
    assert children[0].name == "id" && children[1].name == "name";
    assert children[2].name == "namevariations" && children[3].name == "image";
  }

  lemma {:induction false} OnlyOne(children: seq<Child>, i: nat)
    requires i < |children|
    requires forall j :: 0 <= j < |children| && j != i ==> children[j].name != children[i].name
    ensures Named(children, children[i].name) == [children[i].value]
  {
    var rest, name := children[1..], children[i].name;
    if i == 0 {
      NoneNamed(rest, name);
    } else {
      assert children[0].name != name;
      OnlyOne(rest, i - 1);
    }
  }

  lemma {:induction false} NoneNamed(children: seq<Child>, name: string)
    requires forall j :: 0 <= j < |children| ==> children[j].name != name
    ensures Named(children, name) == []
  {
    if children != [] {
      NoneNamed(children[1..], name);
    }
  }

  lemma ArtistChildrenDiffer()
    ensures var c := ArtistChildren();
            |c| == 4 && |c[0].name| == 2 && |c[1].name| == 4 && |c[2].name| == 14 && |c[3].name| == 5
  {
  }

  lemma ArtistNamed(i: nat)
    requires i < |ArtistChildren()|
    ensures Named(ArtistChildren(), ArtistChildren()[i].name) == [ArtistChildren()[i].value]
  {
    ArtistChildrenDiffer();
    OnlyOne(ArtistChildren(), i);
  }

  lemma ArtistFields()
    ensures Grouped(ArtistChildren()) == ArtistData()
  {
    ArtistNames();
    ArtistNamed(0);
    ArtistNamed(1);
    ArtistNamed(2);
    ArtistNamed(3);
  }

  lemma ArtistConverts(fields: map<string, Value>)
    requires fields == Grouped(ArtistChildren()) && "id" in fields
    ensures Convert(Artist()) == Obj(fields)
  {
    ArtistHasChildren();
    OnlyChildren(Artist(), fields);
  }

  lemma ArtistId()
    ensures "@id" !in ArtistData() && "id" in ArtistData() && ArtistData()["id"] == Str("1")
  {
  }

  lemma RecordWithId(target: string, n: Node, fields: map<string, Value>, id: string)
    requires IsElement(n) && n.name == target && Convert(n) == Obj(fields)
    requires "@id" !in fields && "id" in fields && fields["id"] == Str(id)
    ensures RecordsOf(target, [n]) == [DataMessage(id, Obj(fields))]
  {
    assert [n][1..] == [];
  }

  /** It is sent with the text of its `id` element, and with this object. */
  lemma ArtistIsSent()
    ensures RecordsOf("artist", [Artist()]) == [DataMessage("1", Obj(ArtistData()))]
  {
    ArtistFields();
    ArtistId();
    var fields := ArtistData();
    ArtistConverts(fields);
    RecordWithId("artist", Artist(), fields, "1");
  }
}
