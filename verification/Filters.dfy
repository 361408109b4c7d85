/** The record filters of the rules: removing values that match, and clearing values out of range. */
module Filters {
  import opened Json
  import opened Numbers
  import opened Strings
  import opened Normalize
  import opened Xml

  /** The bounds of a range, and how the program reads a number. */
  datatype Range = Range(parse: string -> Option<real>, below: Option<real>, above: Option<real>)

  /** A compiled condition. `path` is the pointer to the object that bears the leaf; `matches`
      is the compiled expression. */
  datatype Condition =
    | RemoveMatching(path: seq<string>, leaf: string, matches: string -> bool)
    | NullifyWhen(field: string, range: Range)

  // ---- Ranges ----

  predicate EndsYear(c: char) {
    c == '-' || c == '/' || c == '.' || c == ' ' || c == 'T'
  }

  /** What stands before the first separator of a date. */
  function FirstToken(text: string): string {
    if text == [] || EndsYear(text[0]) then [] else [text[0]] + FirstToken(text[1..])
  }

  function LeadingYear(parse: string -> Option<real>, text: string): Option<real> {
    var token := Trim(FirstToken(text));
    if token == [] then None else parse(token)
  }

  /** A number, or the year at the beginning of a date. */
  function ReadNumber(parse: string -> Option<real>, text: string): Option<real> {
    if parse(text).Some? then parse(text) else LeadingYear(parse, text)
  }

  predicate OutOfRange(range: Range, text: string) {
    var n := ReadNumber(range.parse, text);
    n.Some? && ((range.below.Some? && n.value < range.below.value)
                || (range.above.Some? && n.value > range.above.value))
  }

  // ---- Filters ----

  /** What a condition has done to a record. */
  datatype Action = Action(removedCount: nat, removedValues: seq<string>)

  predicate Hit(v: Value, matches: string -> bool) {
    v.Str? && matches(v.text)
  }

  function Kept(items: seq<Value>, matches: string -> bool): seq<Value> {
    if items == [] then []
    else
      var k := |items| - 1;
      Kept(items[..k], matches) + (if Hit(items[k], matches) then [] else [items[k]])
  }

  function Removed(items: seq<Value>, matches: string -> bool): seq<string> {
    if items == [] then []
    else
      var k := |items| - 1;
      Removed(items[..k], matches) + (if Hit(items[k], matches) then [items[k].text] else [])
  }

  datatype Outcome = Outcome(value: Value, action: Option<Action>)

  /** The leaf of an object: an array loses its matching elements, a matching string goes with
      its key, and anything else is left alone. */
  function FilterLeaf(v: Value, leaf: string, matches: string -> bool): Outcome {
    if !v.Obj? || leaf !in v.fields then Outcome(v, None)
    else
      match v.fields[leaf]
      case Arr(items) =>
        var removed := Removed(items, matches);
        Outcome(Obj(v.fields[leaf := Arr(Kept(items, matches))]), if removed == [] then None
                else Some(Action(|removed|, removed)))
      case Str(text) =>
        if matches(text) then Outcome(Obj(v.fields - {leaf}), Some(Action(1, [text]))) else Outcome(v, None)
      case _ => Outcome(v, None)
  }

  /** A pointer's token as an array index: digits without a leading zero. */
  function ParseIndex(token: string): Option<nat> {
    if token == [] || (|token| > 1 && token[0] == '0') || !OnlyDigits(token) then None
    else Some(Number(token))
  }

  /** The filter applied at the object the pointer leads to, if it leads anywhere. */
  function FilterAt(v: Value, path: seq<string>, leaf: string, matches: string -> bool): (r: Outcome)
    ensures r.value.Obj? <==> v.Obj?
    decreases |path|
  {
    if path == [] then FilterLeaf(v, leaf, matches)
    else if v.Obj? && path[0] in v.fields then
      var inner := FilterAt(v.fields[path[0]], path[1..], leaf, matches);
      Outcome(Obj(v.fields[path[0] := inner.value]), inner.action)
    else if v.Arr? && ParseIndex(path[0]).Some? && ParseIndex(path[0]).value < |v.items| then
      var i := ParseIndex(path[0]).value;
      var inner := FilterAt(v.items[i], path[1..], leaf, matches);
      Outcome(Arr(v.items[i := inner.value]), inner.action)
    else Outcome(v, None)
  }

  function Nullify(v: Value, field: string, range: Range): Outcome {
    if !v.Obj? || field !in v.fields then Outcome(v, None)
    else
      match v.fields[field]
      case Str(text) => NullifyText(v.fields, field, range, text)
      case Num(n) => NullifyText(v.fields, field, range, Decimal(n))
      case _ => Outcome(v, None)
  }

  function NullifyText(fields: map<string, Value>, field: string, range: Range, text: string): Outcome {
    if OutOfRange(range, text) then Outcome(Obj(fields[field := Null]), Some(Action(1, [text])))
    else Outcome(Obj(fields), None)
  }

  function Apply(c: Condition, record: Value): Outcome {
    match c
    case RemoveMatching(path, leaf, matches) => FilterAt(record, path, leaf, matches)
    case NullifyWhen(field, range) => Nullify(record, field, range)
  }

  datatype Filtered = Filtered(record: Value, actions: seq<Action>)

  /** All conditions in order, each on what the one before it left. */
  function ApplyAll(conditions: seq<Condition>, record: Value): Filtered {
    if conditions == [] then Filtered(record, [])
    else
      var before := ApplyAll(conditions[..|conditions| - 1], record);
      var outcome := Apply(conditions[|conditions| - 1], before.record);
      Filtered(outcome.value, before.actions + (if outcome.action.Some? then [outcome.action.value] else []))
  }

  method Retain(items: seq<Value>, matches: string -> bool) returns (kept: seq<Value>, removed: seq<string>)
    ensures kept == Kept(items, matches) && removed == Removed(items, matches)
    ensures |kept| + |removed| == |items|
  {
    kept, removed := [], [];
    for i := 0 to |items|
      invariant kept == Kept(items[..i], matches) && removed == Removed(items[..i], matches)
      invariant |kept| + |removed| == i
    {
      assert items[..i + 1][..i] == items[..i];
      if items[i].Str? && matches(items[i].text) {
        removed := removed + [items[i].text];
      } else {
        kept := kept + [items[i]];
      }
    }
    assert items[..|items|] == items;
  }

  /** The record is owned by the caller and updated in place: a variable here. */
  method ApplyFilters(conditions: seq<Condition>, record: Value) returns (filtered: Value, actions: seq<Action>)
    ensures Filtered(filtered, actions) == ApplyAll(conditions, record)
  {
    filtered, actions := record, [];
    for i := 0 to |conditions|
      invariant Filtered(filtered, actions) == ApplyAll(conditions[..i], record)
    {
      assert conditions[..i + 1][..i] == conditions[..i];
      var outcome := Apply(conditions[i], filtered);
      filtered := outcome.value;
      if outcome.action.Some? {
        actions := actions + [outcome.action.value];
      }
    }
    assert conditions[..|conditions|] == conditions;
  }

  // ---- What a filter keeps ----

  lemma {:induction false} KeptAppend(a: seq<Value>, b: seq<Value>, matches: string -> bool)
    ensures Kept(a + b, matches) == Kept(a, matches) + Kept(b, matches)
    decreases |b|
  {
    if b == [] {
      assert a + b == a;
    } else {
      var k := |b| - 1;
      assert (a + b)[..|a + b| - 1] == a + b[..k];
      KeptAppend(a, b[..k], matches);
    }
  }

  /** A value is kept exactly when it was there and does not match. */
  lemma {:induction false} KeptIff(items: seq<Value>, matches: string -> bool, v: Value)
    ensures v in Kept(items, matches) <==> v in items && !Hit(v, matches)
  {
    if items != [] {
      var k := |items| - 1;
      KeptIff(items[..k], matches, v);
      assert items == items[..k] + [items[k]];
    }
  }

  /** Filtering again finds nothing more to remove. */
  lemma {:induction false} KeptTwice(items: seq<Value>, matches: string -> bool)
    ensures Kept(Kept(items, matches), matches) == Kept(items, matches)
  {
    if items != [] {
      var k := |items| - 1;
      KeptTwice(items[..k], matches);
      KeptAppend(Kept(items[..k], matches), if Hit(items[k], matches) then [] else [items[k]], matches);
      if !Hit(items[k], matches) {
        assert [items[k]][..0] == [];
      }
    }
  }

  // ---- Filtering is blind to the shape ----

  /** A container's children of one name, added one by one as the parser does, beside others. */
  function Container(others: map<string, Value>, leaf: string, values: seq<Value>): Value {
    var all := AddAll(others, ChildrenOf(leaf, values));
    if all == map[] then Null else Obj(all)
  }

  /** One child is a scalar, several are an array: what the parser makes of the values. */
  function LeafValue(values: seq<Value>): Value
    requires values != []
  {
    if |values| == 1 then values[0] else Arr(values)
  }

  predicate NoArrays(values: seq<Value>) {
    forall i :: 0 <= i < |values| ==> !values[i].Arr?
  }

  function ChildrenOf(leaf: string, values: seq<Value>): seq<Child> {
    seq(|values|, i requires 0 <= i < |values| => Child(leaf, values[i]))
  }

  lemma LeafGrows(others: map<string, Value>, leaf: string, before: seq<Value>, next: Value)
    requires before != [] && !before[0].Arr?
    ensures AddChild(others[leaf := LeafValue(before)], leaf, next) == others[leaf := LeafValue(before + [next])]
  {
    if |before| == 1 {
      assert before + [next] == [before[0], next];
    }
  }

  lemma {:induction false} AddedLeaf(others: map<string, Value>, leaf: string, before: seq<Value>, values: seq<Value>)
    requires leaf !in others && before != [] && NoArrays(before + values)
    ensures AddAll(others[leaf := LeafValue(before)], ChildrenOf(leaf, values))
            == others[leaf := LeafValue(before + values)]
    decreases |values|
  {
    if values == [] {
      assert before + values == before;
    } else {
      var first, rest := values[0], values[1..];
      assert ChildrenOf(leaf, values)[1..] == ChildrenOf(leaf, rest);
      assert before + [first] + rest == before + values;
      assert (before + values)[0] == before[0];
      LeafGrows(others, leaf, before, first);
      AddedLeaf(others, leaf, before + [first], rest);
    }
  }

  /** The container as a whole. */
  lemma ContainerIs(others: map<string, Value>, leaf: string, values: seq<Value>)
    requires leaf !in others && NoArrays(values)
    ensures values != [] ==> Container(others, leaf, values) == Obj(others[leaf := LeafValue(values)])
    ensures values == [] ==> Container(others, leaf, values) == if others == map[] then Null else Obj(others)
  {
    if values != [] {
      assert ChildrenOf(leaf, values)[1..] == ChildrenOf(leaf, values[1..]);
      assert [values[0]] + values[1..] == values;
      assert AddAll(others, ChildrenOf(leaf, values))
             == AddAll(others[leaf := values[0]], ChildrenOf(leaf, values[1..]));
      AddedLeaf(others, leaf, [values[0]], values[1..]);
      assert leaf in AddAll(others, ChildrenOf(leaf, values));
    }
  }

  /** The record with the values of one container filtered, and its list then normalized. */
  function Cleaned(record: map<string, Value>, field: string, leaf: string, matches: string -> bool,
                   item: Value -> Value): map<string, Value> {
    NormalizeField(FilterAt(Obj(record), [field], leaf, matches).value.fields, field, leaf, item)
  }

  /** The list holds these items, or the field is absent if there are none. */
  predicate HoldsExactly(record: map<string, Value>, field: string, items: seq<Value>) {
    if items == [] then field !in record else field in record && record[field] == Arr(items)
  }

  /** The filter on a container, whatever its shape. */
  lemma FilterContainer(others: map<string, Value>, leaf: string, values: seq<Value>, matches: string -> bool)
    requires leaf !in others && NoArrays(values)
    ensures var filtered := FilterLeaf(Container(others, leaf, values), leaf, matches).value;
            UnwrapContainer(filtered, leaf).items == if values == [Null] then [] else Kept(values, matches)
  {
    ContainerIs(others, leaf, values);
    if |values| == 1 {
      assert values == [values[0]] && values[..0] == [];
      assert Kept(values, matches) == if Hit(values[0], matches) then [] else [values[0]];
    }
  }

  ghost predicate OnlyChanges(record: map<string, Value>, field: string, after: map<string, Value>) {
    forall other :: other != field ==>
        (other in after <==> other in record) && (other in record ==> after[other] == record[other])
  }

  lemma NormalizedHolds(record: map<string, Value>, field: string, key: string, item: Value -> Value)
    requires field in record
    ensures var after := NormalizeField(record, field, key, item);
            HoldsExactly(after, field, Mapped(UnwrapContainer(record[field], key).items, item))
              && OnlyChanges(record, field, after)
  {
  }

  lemma FilterFirst(record: map<string, Value>, field: string, container: Value, leaf: string, matches: string -> bool)
    ensures FilterAt(Obj(record[field := container]), [field], leaf, matches).value
            == Obj(record[field := FilterLeaf(container, leaf, matches).value])
  {
    assert [field][1..] == [];
    var m := record[field := container];
    assert m[field := FilterLeaf(container, leaf, matches).value]
           == record[field := FilterLeaf(container, leaf, matches).value];
  }

  lemma HoldsOneList(record: map<string, Value>, field: string, items: seq<Value>, other: seq<Value>)
    requires HoldsExactly(record, field, items)
    ensures HoldsExactly(record, field, other) <==> other == items
  {
  }

  lemma KeptNull(matches: string -> bool)
    ensures Kept([Null], matches) == [Null]
  {
    assert [Null][..0] == [];
  }

  /** Filtering and normalizing yield exactly the values that do not match, in order, with the
      field absent when none remain, however often the value occurs and whatever the items are
      turned into; except that a lone empty element is dropped, where several are kept. Nothing
      else in the record changes. */
  lemma FilteringIsShapeBlind(record: map<string, Value>, field: string, leaf: string, others: map<string, Value>,
                              values: seq<Value>, matches: string -> bool, item: Value -> Value)
    requires leaf !in others && NoArrays(values)
    ensures var cleaned := Cleaned(record[field := Container(others, leaf, values)], field, leaf, matches, item);
            && (HoldsExactly(cleaned, field, Mapped(Kept(values, matches), item)) <==> values != [Null])
            && OnlyChanges(record, field, cleaned)
  {
    var filtered := FilterLeaf(Container(others, leaf, values), leaf, matches).value;
    FilterFirst(record, field, Container(others, leaf, values), leaf, matches);
    FilterContainer(others, leaf, values, matches);
    NormalizedHolds(record[field := filtered], field, leaf, item);
    var items := Mapped(UnwrapContainer(filtered, leaf).items, item);
    HoldsOneList(NormalizeField(record[field := filtered], field, leaf, item), field, items,
                 Mapped(Kept(values, matches), item));
    if values == [Null] {
      KeptNull(matches);
      assert |Mapped(Kept(values, matches), item)| == 1;
    }
  }
}
