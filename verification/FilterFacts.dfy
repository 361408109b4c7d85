/** What each condition does to a record, and what it reports. */
module FilterFacts {
  import opened Json
  import opened Numbers
  import opened Strings
  import opened Filters

  // ---- Several conditions ----

  /** Conditions work one after another, and report in that order. */
  lemma {:induction false} AppliedInOrder(first: seq<Condition>, later: seq<Condition>, record: Value)
    ensures var before := ApplyAll(first, record); var after := ApplyAll(later, before.record);
            ApplyAll(first + later, record) == Filtered(after.record, before.actions + after.actions)
    decreases |later|
  {
    var before := ApplyAll(first, record);
    if later == [] {
      assert first + later == first && before.actions + [] == before.actions;
    } else {
      var k := |later| - 1;
      assert (first + later)[..|first + later| - 1] == first + later[..k];
      AppliedInOrder(first, later[..k], record);
    }
  }

  lemma OneCondition(c: Condition, record: Value)
    ensures var outcome := Apply(c, record);
            ApplyAll([c], record)
              == Filtered(outcome.value, if outcome.action.Some? then [outcome.action.value] else [])
  {
    assert [c][..0] == [];
    assert ApplyAll([], record) == Filtered(record, []);
  }

  // ---- Clearing what is out of range ----

  /** The field holds this text, or a number that is written so. */
  ghost predicate HoldsText(record: Value, field: string, text: string) {
    record.Obj? && field in record.fields
    && (record.fields[field] == Str(text) || (exists n :: record.fields[field] == Num(n) && text == Decimal(n)))
  }

  /** A value out of range becomes null and is reported with its text; the rest of the record stays,
      and so does everything if the field holds no text or number, or one that is in range. */
  lemma ClearsOutOfRange(field: string, range: Range, record: Value)
    ensures var r := ApplyAll([NullifyWhen(field, range)], record);
            forall text :: HoldsText(record, field, text) && OutOfRange(range, text) ==>
              r.record == Obj(record.fields[field := Null]) && r.actions == [Action(1, [text])]
    ensures var r := ApplyAll([NullifyWhen(field, range)], record);
            (forall text :: HoldsText(record, field, text) ==> !OutOfRange(range, text)) ==>
              r.record == record && r.actions == []
  {
    OneCondition(NullifyWhen(field, range), record);
    if record.Obj? && field in record.fields {
      match record.fields[field]
      case Str(text) => assert HoldsText(record, field, text);
      case Num(n) => assert HoldsText(record, field, Decimal(n));
      case _ =>
    }
  }

  /** Afterwards the field is null exactly if it was, or held a text or number out of range. */
  lemma NullIffOutOfRange(field: string, range: Range, record: Value)
    requires record.Obj? && field in record.fields
    ensures var r := ApplyAll([NullifyWhen(field, range)], record);
            && r.record.Obj? && field in r.record.fields
            && (r.record.fields[field] == Null <==>
                  record.fields[field] == Null
                  || exists text :: HoldsText(record, field, text) && OutOfRange(range, text))
            && (r.actions != [] <==> r.record != record)
  {
    ClearsOutOfRange(field, range, record);
    if text :| HoldsText(record, field, text) && OutOfRange(range, text) {
      assert record.fields[field] != Null;
      assert record.fields[field := Null][field] != record.fields[field];
    }
  }

  /** What can be read as a number is out of range if it is below the one bound or above the other. */
  lemma NumberOutOfRange(range: Range, text: string, n: real)
    requires range.parse(text) == Some(n)
    ensures OutOfRange(range, text) <==>
            (range.below.Some? && n < range.below.value) || (range.above.Some? && n > range.above.value)
  {
  }

  /** What may separate the year of a date from the rest. */
  const SEPARATORS: string := "-/. T"

  /** A date is judged by its year: whatever stands before the first separator. */
  lemma DateOutOfRange(range: Range, year: string, separator: char, rest: string)
    requires separator in SEPARATORS && (forall i :: 0 <= i < |year| ==> year[i] !in SEPARATORS)
    requires range.parse(year + [separator] + rest) == None
    ensures var n := if Trim(year) == "" then None else range.parse(Trim(year));
            OutOfRange(range, year + [separator] + rest) <==>
            n.Some?
            && ((range.below.Some? && n.value < range.below.value)
                || (range.above.Some? && n.value > range.above.value))
  {
    forall c ensures EndsYear(c) <==> c in SEPARATORS {
      SeparatorsAre(c);
    }
    TokenIsYear(year, [separator] + rest);
    assert year + [separator] + rest == year + ([separator] + rest);
  }

  lemma SeparatorsAre(c: char)
    ensures c in SEPARATORS <==> EndsYear(c)
  {
    assert SEPARATORS == ['-', '/', '.', ' ', 'T'];
  }

  lemma {:induction false} TokenIsYear(year: string, rest: string)
    requires (forall i :: 0 <= i < |year| ==> !EndsYear(year[i])) && (rest != [] ==> EndsYear(rest[0]))
    ensures FirstToken(year + rest) == year
    decreases |year|
  {
    if year == [] {
      assert year + rest == rest;
    } else {
      assert (year + rest)[1..] == year[1..] + rest;
      TokenIsYear(year[1..], rest);
    }
  }

  // ---- Removing what matches ----

  lemma {:induction false} RemovedAppend(a: seq<Value>, b: seq<Value>, matches: string -> bool)
    ensures Removed(a + b, matches) == Removed(a, matches) + Removed(b, matches)
    decreases |b|
  {
    if b == [] {
      assert a + b == a;
    } else {
      var k := |b| - 1;
      assert (a + b)[..|a + b| - 1] == a + b[..k];
      RemovedAppend(a, b[..k], matches);
    }
  }

  lemma {:induction false} SizesAddUp(items: seq<Value>, matches: string -> bool)
    ensures |Kept(items, matches)| + |Removed(items, matches)| == |items|
  {
    if items != [] {
      SizesAddUp(items[..|items| - 1], matches);
    }
  }

  /** Wherever a value stands in a list: it goes, and is reported, if it is a text that matches;
      otherwise it stays. What is before and after it keeps its place. */
  lemma EachIsKeptOrRemoved(before: seq<Value>, v: Value, after: seq<Value>, matches: string -> bool)
    ensures var hit := v.Str? && matches(v.text); var items := before + [v] + after;
            && Kept(items, matches)
               == Kept(before, matches) + (if hit then [] else [v]) + Kept(after, matches)
            && Removed(items, matches)
               == Removed(before, matches) + (if hit then [v.text] else []) + Removed(after, matches)
  {
    KeptAppend(before + [v], after, matches);
    KeptAppend(before, [v], matches);
    RemovedAppend(before + [v], after, matches);
    RemovedAppend(before, [v], matches);
    assert [v][..0] == [];
  }

  /** A list loses the texts that match, and reports how many and which; nothing is reported if
      nothing matches. A lone text that matches goes with its key. Everything else stays. */
  lemma RemovesMatching(fields: map<string, Value>, leaf: string, matches: string -> bool)
    requires leaf in fields
    ensures var r := ApplyAll([RemoveMatching([], leaf, matches)], Obj(fields)); var v := fields[leaf];
            && (v.Arr? ==>
                  && r.record == Obj(fields[leaf := Arr(Kept(v.items, matches))])
                  && |Kept(v.items, matches)| + |Removed(v.items, matches)| == |v.items|
                  && r.actions == (if |Kept(v.items, matches)| == |v.items| then []
                                   else [Action(|Removed(v.items, matches)|, Removed(v.items, matches))]))
            && (v.Str? && matches(v.text) ==> r.record == Obj(fields - {leaf}) && r.actions == [Action(1, [v.text])])
            && (!v.Arr? && !(v.Str? && matches(v.text)) ==> r.record == Obj(fields) && r.actions == [])
  {
    OneCondition(RemoveMatching([], leaf, matches), Obj(fields));
    if fields[leaf].Arr? {
      SizesAddUp(fields[leaf].items, matches);
    }
  }

  lemma RemovesNothing(record: Value, leaf: string, matches: string -> bool)
    requires !record.Obj? || leaf !in record.fields
    ensures ApplyAll([RemoveMatching([], leaf, matches)], record) == Filtered(record, [])
  {
    OneCondition(RemoveMatching([], leaf, matches), record);
  }

  // ---- Pointers ----

  /** The value a pointer leads to, if it leads anywhere. */
  function At(v: Value, path: seq<string>): Option<Value>
    decreases |path|
  {
    if path == [] then Some(v)
    else if v.Obj? then (if path[0] in v.fields then At(v.fields[path[0]], path[1..]) else None)
    else if v.Arr? && ParseIndex(path[0]).Some? && ParseIndex(path[0]).value < |v.items|
    then At(v.items[ParseIndex(path[0]).value], path[1..])
    else None
  }

  /** An index is what a number is written as, without leading zeros. */
  lemma IndexIsDecimal(n: nat)
    ensures ParseIndex(Decimal(n)) == Some(n)
    ensures ParseIndex("0" + Decimal(n)) == None && ParseIndex("") == None
  {
    DecimalReads(n);
    NoLeadingZero(n);
  }

  lemma {:induction false} NoLeadingZero(n: nat)
    ensures |Decimal(n)| >= 1 && (|Decimal(n)| > 1 ==> Decimal(n)[0] != '0')
    ensures n > 0 ==> Decimal(n)[0] != '0'
  {
    if n >= 10 {
      NoLeadingZero(n / 10);
    } else {
      assert n > 0 ==> DigitValue(Decimal(n)[0]) != DigitValue('0');
    }
  }

  /** A filter works on what its pointer leads to, and reports what it did there; if the pointer leads
      nowhere it does and reports nothing. */
  lemma {:induction false} WorksAtPointer(v: Value, path: seq<string>, leaf: string, matches: string -> bool)
    ensures var r := FilterAt(v, path, leaf, matches); var found := At(v, path);
            && (found.None? ==> r == Outcome(v, None))
            && (found.Some? ==>
                  var there := FilterAt(found.value, [], leaf, matches);
                  At(r.value, path) == Some(there.value) && r.action == there.action)
    decreases |path|
  {
    if path != [] {
      if v.Obj? && path[0] in v.fields {
        WorksAtPointer(v.fields[path[0]], path[1..], leaf, matches);
        assert v.fields[path[0] := v.fields[path[0]]] == v.fields;
      } else if v.Arr? && ParseIndex(path[0]).Some? && ParseIndex(path[0]).value < |v.items| {
        var i := ParseIndex(path[0]).value;
        WorksAtPointer(v.items[i], path[1..], leaf, matches);
        assert v.items[i := v.items[i]] == v.items;
      }
    }
  }

  /** Nothing else in the record changes: not what any other pointer leads to. */
  lemma {:induction false} LeavesTheRest(v: Value, path: seq<string>, leaf: string, matches: string -> bool,
                                         i: nat, other: seq<string>)
    requires i < |path| && i < |other| && path[..i] == other[..i] && path[i] != other[i]
    requires ParseIndex(path[i]).Some? ==> ParseIndex(path[i]) != ParseIndex(other[i])
    ensures At(FilterAt(v, path, leaf, matches).value, other) == At(v, other)
    decreases i
  {
    if i > 0 {
      assert path[0] == path[..i][0] && other[0] == other[..i][0];
      assert path[1..][..i - 1] == path[..i][1..] && other[1..][..i - 1] == other[..i][1..];
      if v.Obj? && path[0] in v.fields {
        LeavesTheRest(v.fields[path[0]], path[1..], leaf, matches, i - 1, other[1..]);
      } else if v.Arr? && ParseIndex(path[0]).Some? && ParseIndex(path[0]).value < |v.items| {
        LeavesTheRest(v.items[ParseIndex(path[0]).value], path[1..], leaf, matches, i - 1, other[1..]);
      }
    }
  }
}
