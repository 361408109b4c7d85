/** The printer: a JSON value as the XML element it stands for. */
module XmlWriter {
  import opened Json
  import opened Numbers
  import opened Sorting
  import opened Strings
  import opened Xml

  /** The attributes of an object: its string fields whose key has the prefix. */
  function AttributesOf(fields: map<string, Value>, keys: seq<string>): seq<Attribute> {
    if keys == [] then []
    else
      var k := |keys| - 1;
      AttributesOf(fields, keys[..k])
      + (if IsAt(keys[k]) && keys[k] in fields && fields[keys[k]].Str?
         then [Attribute(keys[k][1..], fields[keys[k]].text)] else [])
  }

  function TextNodes(fields: map<string, Value>): seq<Node> {
    if "#text" in fields && fields["#text"].Str? then [Text(Chars(fields["#text"].text))] else []
  }

  /** Attributes and text have been written, and `id` is not written beside `@id`. */
  predicate IsSkipped(fields: map<string, Value>, key: string) {
    IsAt(key) || key == "#text" || (key == "id" && "@id" in fields)
  }

  /** What an element of this name and value is written as: one element, or nothing for a
      boolean and for an array that is not a field. */
  function Print(name: string, value: Value): seq<Node>
    decreases value, 1, 0
  {
    match value
    case Obj(fields) =>
      var keys := Sorted(fields.Keys);
      SortedHolds(fields.Keys);
      [Elem(name, AttributesOf(fields, keys), TextNodes(fields) + PrintFields(value, keys))]
    case Str(text) => [Elem(name, [], [Text(Chars(text))])]
    case Num(n) => [Elem(name, [], [Text(Chars(Decimal(n)))])]
    case Null => [EmptyElem(name, [])]
    case _ => []
  }

  function PrintFields(value: Value, keys: seq<string>): seq<Node>
    requires value.Obj? && Elements(keys) <= value.fields.Keys
    decreases value, 0, |keys|
  {
    if keys == [] then []
    else
      var k := |keys| - 1;
      ElementsFront(keys);
      PrintFields(value, keys[..k]) + PrintField(value, keys[k])
  }

  function PrintField(value: Value, key: string): seq<Node>
    requires value.Obj? && key in value.fields
    decreases value, 0, 0
  {
    if IsSkipped(value.fields, key) then []
    else if value.fields[key].Arr? then PrintItems(key, value.fields[key].items)
    else Print(key, value.fields[key])
  }

  /** An array is written as repeated elements. */
  function PrintItems(name: string, items: seq<Value>): seq<Node>
    decreases items, 2, 0
  {
    if items == [] then [] else PrintItems(name, items[..|items| - 1]) + Print(name, items[|items| - 1])
  }

  lemma ElementsFront(keys: seq<string>)
    requires keys != []
    ensures keys[|keys| - 1] in Elements(keys) && Elements(keys[..|keys| - 1]) <= Elements(keys)
  {
    assert keys[|keys| - 1] in Elements(keys);
    forall s | s in Elements(keys[..|keys| - 1]) ensures s in Elements(keys) {
      var i :| 0 <= i < |keys| - 1 && keys[i] == s;
    }
  }

  lemma {:induction false} EventsAppend(a: seq<Node>, b: seq<Node>)
    ensures EventsOf(a + b) == EventsOf(a) + EventsOf(b)
    decreases |a|
  {
    if a == [] {
      assert a + b == b;
    } else {
      assert (a + b)[1..] == a[1..] + b;
      EventsAppend(a[1..], b);
    }
  }

  /** The events of a list of nodes and one more list. */
  lemma EventsGrow(before: seq<Event>, a: seq<Node>, b: seq<Node>)
    ensures before + EventsOf(a + b) == before + EventsOf(a) + EventsOf(b)
  {
    EventsAppend(a, b);
  }

  lemma ElementEvents(before: seq<Event>, name: string, attributes: seq<Attribute>, a: seq<Node>, b: seq<Node>)
    ensures before + [Start(name, attributes)] + EventsOf(a) + EventsOf(b) + [End(name)]
            == before + EventsOf([Elem(name, attributes, a + b)])
  {
    EventsAppend(a, b);
    OneNode(Elem(name, attributes, a + b));
  }

  method CollectAttributes(fields: map<string, Value>, keys: seq<string>) returns (attributes: seq<Attribute>)
    requires Elements(keys) <= fields.Keys
    ensures attributes == AttributesOf(fields, keys)
  {
    attributes := [];
    for i := 0 to |keys|
      invariant attributes == AttributesOf(fields, keys[..i])
    {
      assert keys[..i + 1][..i] == keys[..i];
      assert keys[i] in Elements(keys);
      if IsAt(keys[i]) && fields[keys[i]].Str? {
        attributes := attributes + [Attribute(keys[i][1..], fields[keys[i]].text)];
      }
    }
    assert keys[..|keys|] == keys;
  }

  class Writer {
    var events: seq<Event>

    constructor ()
      ensures events == []
    {
      events := [];
    }

    method WriteEvent(event: Event)
      modifies this
      ensures events == old(events) + [event]
    {
      events := events + [event];
    }

    method WriteElement(name: string, value: Value)
      modifies this
      ensures events == old(events) + EventsOf(Print(name, value))
      decreases value, 2
    {
      match value
      case Obj(fields) => WriteObject(name, value);
      case Str(text) => WriteText(name, text);
      case Num(n) => WriteText(name, Decimal(n));
      case Null =>
        OneNode(EmptyElem(name, []));
        WriteEvent(Empty(name, []));
      case _ =>
    }

    method WriteText(name: string, text: string)
      modifies this
      ensures events == old(events) + EventsOf([Elem(name, [], [Text(Chars(text))])])
    {
      OneNode(Elem(name, [], [Text(Chars(text))]));
      OneNode(Text(Chars(text)));
      WriteEvent(Start(name, []));
      WriteEvent(Data(Chars(text)));
      WriteEvent(End(name));
    }

    method WriteObject(name: string, value: Value)
      requires value.Obj?
      modifies this
      ensures events == old(events) + EventsOf(Print(name, value))
      decreases value, 1
    {
      var fields := value.fields;
      var keys := Sorted(fields.Keys);
      SortedHolds(fields.Keys);
      var attributes := CollectAttributes(fields, keys);
      WriteEvent(Start(name, attributes));
      WriteOwnText(fields);
      WriteFields(value, keys);
      WriteEvent(End(name));
      ElementEvents(old(events), name, attributes, TextNodes(fields), PrintFields(value, keys));
    }

    method WriteOwnText(fields: map<string, Value>)
      modifies this
      ensures events == old(events) + EventsOf(TextNodes(fields))
    {
      if "#text" in fields && fields["#text"].Str? {
        OneNode(Text(Chars(fields["#text"].text)));
        WriteEvent(Data(Chars(fields["#text"].text)));
      }
    }

    method WriteFields(value: Value, keys: seq<string>)
      requires value.Obj? && Elements(keys) <= value.fields.Keys
      modifies this
      ensures events == old(events) + EventsOf(PrintFields(value, keys))
      decreases value, 0
    {
      var hasAtId := "@id" in value.fields;
      for i := 0 to |keys|
        invariant Elements(keys[..i]) <= value.fields.Keys
        invariant events == old(events) + EventsOf(PrintFields(value, keys[..i]))
      {
        assert keys[..i + 1][..i] == keys[..i];
        var key := keys[i];
        assert key in Elements(keys);
        EventsGrow(old(events), PrintFields(value, keys[..i]), PrintField(value, key));
        if IsAt(key) || key == "#text" {
          continue;
        }
        if key == "id" && hasAtId {
          continue;
        }
        if value.fields[key].Arr? {
          var items := value.fields[key].items;
          ghost var before := events;
          for j := 0 to |items|
            invariant events == before + EventsOf(PrintItems(key, items[..j]))
          {
            assert items[..j + 1][..j] == items[..j];
            EventsGrow(before, PrintItems(key, items[..j]), Print(key, items[j]));
            WriteElement(key, items[j]);
          }
          assert items[..|items|] == items;
        } else {
          WriteElement(key, value.fields[key]);
        }
      }
      assert keys[..|keys|] == keys;
    }
  }
}
