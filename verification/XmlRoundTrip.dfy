/** Parsing what the printer writes: which values come back, and which do not. */
module XmlRoundTrip {
  import opened Json
  import opened Sorting
  import opened Strings
  import opened Xml
  import opened XmlParser
  import opened XmlRefinement
  import opened XmlWriter

  // ---- Canonical values ----

  /** Nothing, text, or an object that is neither empty nor text alone; under a key that is not
      an attribute's and not `#text`, another such value or an array of at least two. */
  ghost predicate Canonical(v: Value)
    decreases v
  {
    match v
    case Null => true
    case Str(text) => HasText(text)
    case Obj(fields) =>
      && fields.Keys != {} && fields.Keys != {"#text"}
      && forall key :: key in fields ==>
           if IsAt(key) then fields[key].Str?
           else if key == "#text" then fields[key].Str? && HasText(fields[key].text)
           else if fields[key].Arr? then |fields[key].items| >= 2
             && forall i :: 0 <= i < |fields[key].items| ==> Canonical(fields[key].items[i])
           else Canonical(fields[key])
    case _ => false
  }

  predicate ChildKey(key: string) {
    !IsAt(key) && key != "#text"
  }

  /** No element inside has a name that an attribute or the text would claim; XML names begin
      with neither character. */
  predicate ProperNames(nodes: seq<Node>)
    decreases nodes
  {
    forall i :: 0 <= i < |nodes| ==>
      && (IsElement(nodes[i]) ==> ChildKey(nodes[i].name))
      && (nodes[i].Elem? ==> ProperNames(nodes[i].children))
  }

  /** A field under a child key. */
  ghost predicate CanonicalField(v: Value) {
    if v.Arr? then |v.items| >= 2 && forall i :: 0 <= i < |v.items| ==> Canonical(v.items[i]) else Canonical(v)
  }

  ghost predicate CanonicalChildren(children: seq<Child>) {
    forall i :: 0 <= i < |children| ==> ChildKey(children[i].name) && Canonical(children[i].value)
  }

  lemma {:induction false} NamedCanonical(children: seq<Child>, name: string)
    requires CanonicalChildren(children)
    ensures forall i :: 0 <= i < |Named(children, name)| ==> Canonical(Named(children, name)[i])
  {
    if children != [] {
      NamedCanonical(children[1..], name);
    }
  }

  lemma GroupedCanonical(children: seq<Child>, name: string)
    requires CanonicalChildren(children) && name in Grouped(children)
    ensures ChildKey(name) && CanonicalField(Grouped(children)[name])
  {
    NamedCanonical(children, name);
    NamedEmpty(children, name);
    var i :| 0 <= i < |children| && children[i].name == name;
    if |Named(children, name)| == 1 {
      assert Canonical(Named(children, name)[0]);
    }
  }

  lemma ShapeCanonical(attributes: map<string, string>, text: string, children: map<string, Value>)
    requires forall key :: key in children ==> ChildKey(key) && CanonicalField(children[key])
    ensures Canonical(Shape(attributes, text, children))
  {
    if attributes != map[] || children != map[] {
      var fields := Shape(attributes, text, children).fields;
      if attributes != map[] {
        AtFieldsEmpty(attributes);
        var key :| key in AtFields(attributes);
        AtFieldsAt(attributes, key);
        assert key in fields && key != "#text";
      } else {
        var key :| key in children;
        assert key in fields && key != "#text";
      }
      forall key | key in fields
        ensures if IsAt(key) then fields[key].Str?
                else if key == "#text" then fields[key].Str? && HasText(fields[key].text)
                else CanonicalField(fields[key])
      {
        AtFieldsAt(attributes, key);
      }
    }
  }

  lemma AtFieldsAt(attributes: map<string, string>, key: string)
    ensures key in AtFields(attributes) ==> IsAt(key) && AtFields(attributes)[key].Str?
  {
  }

  /** Every value the converter produces is canonical. */
  lemma {:induction false} ConvertIsCanonical(n: Node)
    requires IsElement(n) && (n.Elem? ==> ProperNames(n.children))
    ensures Canonical(Convert(n))
    decreases n
  {
    if n.Elem? {
      ChildrenCanonical(n.children);
      forall name | name in Grouped(Children(n.children))
        ensures ChildKey(name) && CanonicalField(Grouped(Children(n.children))[name]) {
        GroupedCanonical(Children(n.children), name);
      }
      ShapeCanonical(AttributeMap(n.attributes), TextOf(n.children), Grouped(Children(n.children)));
    } else {
      ShapeCanonical(AttributeMap(n.attributes), "", map[]);
    }
  }

  lemma {:induction false} ChildrenCanonical(nodes: seq<Node>)
    requires ProperNames(nodes)
    ensures CanonicalChildren(Children(nodes))
    decreases nodes
  {
    if nodes != [] {
      if IsElement(nodes[0]) {
        ConvertIsCanonical(nodes[0]);
      }
      ProperRest(nodes);
      ChildrenCanonical(nodes[1..]);
    }
  }

  lemma ProperRest(nodes: seq<Node>)
    requires nodes != [] && ProperNames(nodes)
    ensures ProperNames(nodes[1..])
  {
    var rest := nodes[1..];
    forall i | 0 <= i < |rest|
      ensures (IsElement(rest[i]) ==> ChildKey(rest[i].name)) && (rest[i].Elem? ==> ProperNames(rest[i].children)) {
      assert rest[i] == nodes[i + 1];
    }
  }

  // ---- What printing drops ----

  /** The value without any `id` beside an `@id`, at every level. */
  function Pruned(v: Value): Value
    decreases v
  {
    match v
    case Obj(fields) => Obj(map key | key in fields && !(key == "id" && "@id" in fields) :: Pruned(fields[key]))
    case Arr(items) => Arr(seq(|items|, i requires 0 <= i < |items| => Pruned(items[i])))
    case _ => v
  }

  /** No object in the value has both. */
  predicate NoDoubleId(v: Value)
    decreases v
  {
    match v
    case Obj(fields) => !("id" in fields && "@id" in fields) && forall key :: key in fields ==> NoDoubleId(fields[key])
    case Arr(items) => forall i :: 0 <= i < |items| ==> NoDoubleId(items[i])
    case _ => true
  }

  /** Pruning changes nothing exactly when there was nothing to drop. */
  lemma {:induction false} PrunedIff(v: Value)
    ensures Pruned(v) == v <==> NoDoubleId(v)
    decreases v
  {
    match v
    case Obj(fields) => PrunedFields(v);
    case Arr(items) => PrunedItems(v);
    case _ =>
  }

  lemma {:induction false} PrunedFields(v: Value)
    requires v.Obj?
    ensures Pruned(v) == v <==> NoDoubleId(v)
    decreases v, 0
  {
    var fields := v.fields;
    forall key | key in fields ensures Pruned(fields[key]) == fields[key] <==> NoDoubleId(fields[key]) {
      PrunedIff(fields[key]);
    }
    if "id" in fields && "@id" in fields {
      assert "id" !in Pruned(v).fields;
    } else if forall key :: key in fields ==> NoDoubleId(fields[key]) {
      assert Pruned(v).fields == fields;
    } else {
      var key :| key in fields && !NoDoubleId(fields[key]);
      assert Pruned(v).fields[key] == Pruned(fields[key]);
    }
  }

  lemma {:induction false} PrunedItems(v: Value)
    requires v.Arr?
    ensures Pruned(v) == v <==> NoDoubleId(v)
    decreases v, 0
  {
    var items := v.items;
    forall i | 0 <= i < |items| ensures Pruned(items[i]) == items[i] <==> NoDoubleId(items[i]) {
      PrunedIff(items[i]);
    }
    if NoDoubleId(v) {
      assert Pruned(v).items == items;
    } else {
      var i :| 0 <= i < |items| && !NoDoubleId(items[i]);
      assert Pruned(v).items[i] == Pruned(items[i]);
    }
  }

  // ---- Reading an object back: attributes ----

  ghost function AtPart(fields: map<string, Value>, keys: set<string>): map<string, Value> {
    map key | key in fields && key in keys && IsAt(key) :: fields[key]
  }

  lemma AtFieldsInsert(attributes: map<string, string>, key: string, value: string)
    requires IsAt(key)
    ensures AtFields(attributes[key[1..] := value]) == AtFields(attributes)[key := Str(value)]
  {
    assert "@" + key[1..] == key;
    var more := attributes[key[1..] := value];
    assert AtKeys(more) == AtKeys(attributes) + {key} by {
      forall k | k in attributes ensures "@" + k in AtKeys(more) {
        assert k in more;
      }
      assert key[1..] in more;
    }
    forall k | k in AtKeys(more) ensures AtFields(more)[k] == AtFields(attributes)[key := Str(value)][k] {
      if k != key {
        assert k == "@" + k[1..];
        assert k[1..] != key[1..];
      }
    }
  }

  lemma {:induction false} AttributesRead(fields: map<string, Value>, keys: seq<string>)
    requires Elements(keys) <= fields.Keys && forall key :: key in fields && IsAt(key) ==> fields[key].Str?
    ensures AtFields(AttributeMap(AttributesOf(fields, keys))) == AtPart(fields, Elements(keys))
  {
    if keys == [] {
      assert AtPart(fields, Elements(keys)) == map[];
      assert AtFields(map[]) == map[];
    } else {
      var k := |keys| - 1;
      ElementsFront(keys);
      KeysSnoc(keys);
      AttributesRead(fields, keys[..k]);
      var front := AttributesOf(fields, keys[..k]);
      if IsAt(keys[k]) {
        var last := Attribute(keys[k][1..], fields[keys[k]].text);
        assert (front + [last])[..|front|] == front;
        AtFieldsInsert(AttributeMap(front), keys[k], last.value);
        assert AtPart(fields, Elements(keys)) == AtPart(fields, Elements(keys[..k]))[keys[k] := fields[keys[k]]];
      } else {
        assert front + [] == front;
        assert AtPart(fields, Elements(keys)) == AtPart(fields, Elements(keys[..k]));
      }
    }
  }

  lemma KeysSnoc(keys: seq<string>)
    requires keys != []
    ensures Elements(keys) == Elements(keys[..|keys| - 1]) + {keys[|keys| - 1]}
  {
    ElementsSnoc(keys[..|keys| - 1], keys[|keys| - 1]);
    assert keys == keys[..|keys| - 1] + [keys[|keys| - 1]];
  }

  // ---- Reading an object back: children ----

  lemma {:induction false} ChildrenAppend(a: seq<Node>, b: seq<Node>)
    ensures Children(a + b) == Children(a) + Children(b)
    decreases |a|
  {
    if a == [] {
      assert a + b == b;
    } else {
      ChildrenAppend(a[1..], b);
      ChildrenCons(a[0], a[1..]);
      ChildrenCons(a[0], a[1..] + b);
      assert [a[0]] + a[1..] == a && [a[0]] + (a[1..] + b) == a + b;
    }
  }

  lemma ChildrenCons(n: Node, rest: seq<Node>)
    ensures Children([n] + rest) == Children([n]) + Children(rest)
    ensures TextOf([n] + rest) == TextOf([n]) + TextOf(rest)
  {
    OneChild(n);
    assert ([n] + rest)[1..] == rest;
  }

  lemma {:induction false} TextAppend(a: seq<Node>, b: seq<Node>)
    ensures TextOf(a + b) == TextOf(a) + TextOf(b)
    decreases |a|
  {
    if a == [] {
      assert a + b == b;
    } else {
      TextAppend(a[1..], b);
      ChildrenCons(a[0], a[1..]);
      ChildrenCons(a[0], a[1..] + b);
      assert [a[0]] + a[1..] == a && [a[0]] + (a[1..] + b) == a + b;
    }
  }

  lemma {:induction false} NamedAppend(a: seq<Child>, b: seq<Child>, name: string)
    ensures Named(a + b, name) == Named(a, name) + Named(b, name)
    decreases |a|
  {
    if a == [] {
      assert a + b == b;
    } else {
      NamedAppend(a[1..], b, name);
      var first := if a[0].name == name then [a[0].value] else [];
      assert (a + b)[1..] == a[1..] + b;
      assert Named(a + b, name) == first + (Named(a[1..], name) + Named(b, name));
      assert Named(a, name) == first + Named(a[1..], name);
    }
  }

  /** The occurrences a field is read back as. */
  function Occurrences(v: Value): seq<Value> {
    if v.Arr? then Pruned(v).items else [Pruned(v)]
  }

  predicate OnlyElements(nodes: seq<Node>) {
    forall i :: 0 <= i < |nodes| ==> IsElement(nodes[i])
  }

  lemma {:induction false} ElementsHaveNoText(nodes: seq<Node>)
    requires OnlyElements(nodes)
    ensures TextOf(nodes) == ""
  {
    if nodes != [] {
      ElementsHaveNoText(nodes[1..]);
    }
  }

  /** The nodes are elements of this name that read back as these values. */
  ghost predicate ReadsAs(nodes: seq<Node>, name: string, values: seq<Value>) {
    OnlyElements(nodes) && Children(nodes) == seq(|values|, i requires 0 <= i < |values| => Child(name, values[i]))
  }

  lemma {:induction false} NamedSame(name: string, values: seq<Value>, other: string)
    ensures Named(seq(|values|, i requires 0 <= i < |values| => Child(name, values[i])), other)
            == if other == name then values else []
  {
    var all := seq(|values|, i requires 0 <= i < |values| => Child(name, values[i]));
    if values != [] {
      var rest := values[1..];
      assert all[1..] == seq(|rest|, i requires 0 <= i < |rest| => Child(name, rest[i]));
      NamedSame(name, rest, other);
    }
  }

  /** One element reads back as its value. */
  lemma OneReadsAs(n: Node, name: string, v: Value)
    requires IsElement(n) && n.name == name && Convert(n) == v
    ensures ReadsAs([n], name, [v])
  {
    OneChild(n);
  }

  lemma ReadsAsMore(a: seq<Node>, b: seq<Node>, name: string, values: seq<Value>, v: Value)
    requires ReadsAs(a, name, values) && ReadsAs(b, name, [v])
    ensures ReadsAs(a + b, name, values + [v])
  {
    ChildrenAppend(a, b);
  }

  /** What printing and reading one value amounts to. */
  ghost predicate ReadsBack(name: string, v: Value) {
    ReadsAs(Print(name, v), name, [Pruned(v)])
  }

  lemma {:induction false} ItemsReadBack(name: string, items: seq<Value>)
    requires forall i :: 0 <= i < |items| ==> Canonical(items[i])
    ensures ReadsAs(PrintItems(name, items), name, Pruned(Arr(items)).items)
    decreases items, 4
  {
    if items != [] {
      var k := |items| - 1;
      ItemsReadBack(name, items[..k]);
      ReadBack(name, items[k]);
      ReadsAsMore(PrintItems(name, items[..k]), Print(name, items[k]), name, Pruned(Arr(items[..k])).items,
                  Pruned(items[k]));
      assert Pruned(Arr(items)).items == Pruned(Arr(items[..k])).items + [Pruned(items[k])];
    }
  }

  lemma {:induction false} FieldReadsBack(v: Value, key: string)
    requires v.Obj? && key in v.fields && ChildKey(key) && CanonicalField(v.fields[key]) && !IsSkipped(v.fields, key)
    ensures ReadsAs(PrintField(v, key), key, Occurrences(v.fields[key]))
    decreases v, 0
  {
    if v.fields[key].Arr? {
      ItemsReadBack(key, v.fields[key].items);
    } else {
      ReadBack(key, v.fields[key]);
    }
  }

  /** Nothing else than the fields that are not skipped is read back, each under its key. */
  lemma {:induction false} FieldsReadBack(v: Value, keys: seq<string>, name: string)
    requires v.Obj? && Canonical(v) && Elements(keys) <= v.fields.Keys && Increasing(keys)
    ensures OnlyElements(PrintFields(v, keys))
    ensures Named(Children(PrintFields(v, keys)), name)
         == if name in Elements(keys) && !IsSkipped(v.fields, name) then Occurrences(v.fields[name]) else []
    decreases v, 1, |keys|
  {
    if keys != [] {
      var k := |keys| - 1;
      ElementsFront(keys);
      KeysSnoc(keys);
      FieldsReadBack(v, keys[..k], name);
      LastIsNew(keys);
      OneField(v, keys[k], name);
      ChildrenAppend(PrintFields(v, keys[..k]), PrintField(v, keys[k]));
      NamedAppend(Children(PrintFields(v, keys[..k])), Children(PrintField(v, keys[k])), name);
    }
  }

  lemma LastIsNew(keys: seq<string>)
    requires keys != [] && Increasing(keys)
    ensures keys[|keys| - 1] !in Elements(keys[..|keys| - 1])
  {
    var k := |keys| - 1;
    if keys[k] in Elements(keys[..k]) {
      var i :| 0 <= i < k && keys[..k][i] == keys[k];
      LessIrreflexive(keys[k]);
    }
  }

  lemma {:induction false} OneField(v: Value, key: string, name: string)
    requires v.Obj? && Canonical(v) && key in v.fields
    ensures OnlyElements(PrintField(v, key))
    ensures Named(Children(PrintField(v, key)), name)
            == if name == key && !IsSkipped(v.fields, key) then Occurrences(v.fields[key]) else []
    decreases v, 1, 0
  {
    if !IsSkipped(v.fields, key) {
      FieldReadsBack(v, key);
      NamedSame(key, Occurrences(v.fields[key]), name);
    }
  }

  ghost function ChildPart(fields: map<string, Value>): map<string, Value> {
    map key | key in fields && !IsSkipped(fields, key) :: Pruned(fields[key])
  }

  lemma GroupOfOccurrences(v: Value)
    requires CanonicalField(v)
    ensures Occurrences(v) != [] && Group(Occurrences(v)) == Pruned(v)
  {
  }

  /** Children whose occurrences are those of an object's fields group to these fields. */
  lemma GroupedBack(v: Value, children: seq<Child>)
    requires v.Obj? && Canonical(v)
    requires forall name ::
               Named(children, name)
               == if name in v.fields && !IsSkipped(v.fields, name) then Occurrences(v.fields[name]) else []
    ensures Grouped(children) == ChildPart(v.fields)
  {
    forall name ensures name in Names(children) <==> name in v.fields && !IsSkipped(v.fields, name) {
      NamedEmpty(children, name);
      if name in v.fields && !IsSkipped(v.fields, name) {
        GroupOfOccurrences(v.fields[name]);
      }
    }
    forall name | name in Names(children) ensures Grouped(children)[name] == ChildPart(v.fields)[name] {
      GroupOfOccurrences(v.fields[name]);
    }
  }

  ghost function TextPart(fields: map<string, Value>): map<string, Value> {
    if "#text" in fields then map["#text" := fields["#text"]] else map[]
  }

  ghost function Parts(fields: map<string, Value>): map<string, Value> {
    AtPart(fields, fields.Keys) + TextPart(fields) + ChildPart(fields)
  }

  lemma OnePart(fields: map<string, Value>, key: string)
    requires key in fields && !ChildKey(key) ==> fields[key].Str?
    ensures key in Parts(fields) <==> key in Pruned(Obj(fields)).fields
    ensures key in Parts(fields) ==> Parts(fields)[key] == Pruned(Obj(fields)).fields[key]
  {
  }

  /** An object is its attributes, its text and its children. */
  lemma PartsMakeObject(v: Value)
    requires v.Obj? && Canonical(v)
    ensures Pruned(v) == Obj(Parts(v.fields))
  {
    forall key ensures key in Parts(v.fields) <==> key in Pruned(v).fields {
      OnePart(v.fields, key);
    }
    forall key | key in Parts(v.fields) ensures Parts(v.fields)[key] == Pruned(v).fields[key] {
      OnePart(v.fields, key);
    }
    assert Parts(v.fields) == Pruned(v).fields;
  }

  /** And it has attributes or children. */
  lemma HasParts(v: Value)
    requires v.Obj? && Canonical(v)
    ensures AtPart(v.fields, v.fields.Keys) != map[] || ChildPart(v.fields) != map[]
  {
    var key :| key in v.fields && key != "#text";
    if IsAt(key) {
      assert key in AtPart(v.fields, v.fields.Keys);
    } else if IsSkipped(v.fields, key) {
      assert "@id" in AtPart(v.fields, v.fields.Keys);
    } else {
      assert key in ChildPart(v.fields);
    }
  }

  lemma ObjectShape(v: Value, attributes: map<string, string>, text: string)
    requires v.Obj? && Canonical(v)
    requires AtFields(attributes) == AtPart(v.fields, v.fields.Keys)
    requires text == if "#text" in v.fields && v.fields["#text"].Str? then v.fields["#text"].text else ""
    ensures Shape(attributes, text, ChildPart(v.fields)) == Pruned(v)
  {
    AtFieldsEmpty(attributes);
    HasParts(v);
    PartsMakeObject(v);
    if "#text" in v.fields {
      assert v.fields["#text"] == Str(text) && HasText(text);
    }
  }

  lemma {:induction false} ObjectReadsBack(name: string, v: Value)
    requires v.Obj? && Canonical(v)
    ensures ReadsBack(name, v)
    decreases v, 2
  {
    var keys := Sorted(v.fields.Keys);
    SortedHolds(v.fields.Keys);
    var nodes := PrintFields(v, keys);
    forall key
      ensures OnlyElements(nodes)
              && Named(Children(nodes), key)
              == if key in v.fields && !IsSkipped(v.fields, key) then Occurrences(v.fields[key]) else [] {
      FieldsReadBack(v, keys, key);
    }
    GroupedBack(v, Children(nodes));
    ContentReadsBack(v, nodes);
    AttributesRead(v.fields, keys);
    var n := Elem(name, AttributesOf(v.fields, keys), TextNodes(v.fields) + nodes);
    ObjectShape(v, AttributeMap(n.attributes), TextOf(n.children));
    OneReadsAs(n, name, Pruned(v));
  }

  lemma ContentReadsBack(v: Value, nodes: seq<Node>)
    requires v.Obj? && OnlyElements(nodes)
    ensures Children(TextNodes(v.fields) + nodes) == Children(nodes)
    ensures TextOf(TextNodes(v.fields) + nodes)
            == if "#text" in v.fields && v.fields["#text"].Str? then v.fields["#text"].text else ""
  {
    ChildrenAppend(TextNodes(v.fields), nodes);
    TextAppend(TextNodes(v.fields), nodes);
    ElementsHaveNoText(nodes);
    if TextNodes(v.fields) != [] {
      OneChild(TextNodes(v.fields)[0]);
    }
  }

  lemma {:induction false} ReadBack(name: string, v: Value)
    requires Canonical(v)
    ensures ReadsBack(name, v)
    decreases v, 3
  {
    match v
    case Obj(fields) => ObjectReadsBack(name, v);
    case Str(text) =>
      OneChild(Text(Chars(text)));
      OneReadsAs(Elem(name, [], [Text(Chars(text))]), name, v);
    case Null => OneReadsAs(EmptyElem(name, []), name, v);
  }

  // ---- The round trip ----

  /** Every canonical value is what its printed form converts to, up to the ids that printing
      drops. */
  lemma PrintedConverts(name: string, v: Value)
    requires Canonical(v)
    ensures |Print(name, v)| == 1 && IsElement(Print(name, v)[0]) && Print(name, v)[0].name == name
    ensures Convert(Print(name, v)[0]) == Pruned(v)
  {
    ReadBack(name, v);
    var n := Print(name, v)[0];
    assert Print(name, v) == [n];
    OneChild(n);
    assert Children([n])[0] == Child(name, Pruned(v));
  }

  lemma OneDocument(target: string, root: string, n: Node)
    requires IsElement(n) && n.name == target && Convert(n).Obj?
    ensures Run(target, Init(None), [Start(root, [])] + EventsOf([n]) + [End(root)]).out == [Record(Convert(n).fields)]
  {
    var document := [Elem(root, [], [n])];
    assert document[1..] == [] && [n][1..] == [];
    assert EventsOf(document) == [Start(root, [])] + EventsOf([n]) + [End(root)];
    assert RecordsOf(target, [n]) == [Record(Convert(n).fields)] + RecordsOf(target, [n][1..]);
    assert DocumentRecords(target, document) == RecordsOf(target, [n]) + DocumentRecords(target, document[1..]);
    StackMachineRefinesRecursion(target, document);
  }

  /** A document around one printed record is parsed into that record. */
  lemma PrintedRecordParses(target: string, root: string, v: Value)
    requires v.Obj? && Canonical(v)
    ensures Run(target, Init(None), [Start(root, [])] + EventsOf(Print(target, v)) + [End(root)]).out
            == [Record(Pruned(v).fields)]
  {
    PrintedConverts(target, v);
    var n := Print(target, v)[0];
    assert Print(target, v) == [n];
    OneDocument(target, root, n);
  }

  lemma DroppedIsCanonical(fields: map<string, Value>)
    requires Canonical(Obj(fields))
    ensures Canonical(Obj(DropId(fields)))
  {
    if "@id" in fields {
      assert "@id" in DropId(fields) && "@id" != "#text";
    }
  }

  /** Pruning keeps a record's message: the id, and an object without a double id. */
  lemma PrunedRecord(fields: map<string, Value>)
    requires Canonical(Obj(fields))
    ensures Record(Pruned(Obj(fields)).fields) == DataMessage(IdOf(fields), Pruned(Obj(fields)))
  {
    assert DropId(Pruned(Obj(fields)).fields) == Pruned(Obj(fields)).fields;
    assert IsAt("@id") && !IsAt("id");
  }

  lemma DropKeepsId(fields: map<string, Value>)
    ensures IdOf(DropId(fields)) == IdOf(fields)
  {
  }

  /** Printer and parser undo each other: a message the parser has emitted, printed and parsed
      again, comes back exactly when no object in it has both an attribute and a child `id`. */
  lemma EmittedRecordRoundTrip(target: string, root: string, n: Node)
    requires IsElement(n) && (n.Elem? ==> ProperNames(n.children)) && Convert(n).Obj?
    ensures var m := Record(Convert(n).fields);
            Run(target, Init(None), [Start(root, [])] + EventsOf(Print(target, m.data)) + [End(root)]).out == [m] <==>
                NoDoubleId(m.data)
  {
    var fields := Convert(n).fields;
    ConvertIsCanonical(n);
    DroppedIsCanonical(fields);
    var data := Obj(DropId(fields));
    PrintedRecordParses(target, root, data);
    PrunedRecord(DropId(fields));
    DropKeepsId(fields);
    PrunedIff(data);
  }
}
