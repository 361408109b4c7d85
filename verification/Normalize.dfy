/** How lists in a record are brought into one shape. */
module Normalize {
  import opened Json
  import opened Sorting
  import opened Strings

  /** Always an array: nothing is the empty one, and anything else stands for itself. */
  function EnsureList(v: Value): (r: Value)
    ensures r.Arr?
  {
    match v
    case Arr(_) => v
    case Null => Arr([])
    case _ => Arr([v])
  }

  function UnwrapContainer(v: Value, key: string): (r: Value)
    ensures r.Arr?
  {
    match v
    case Null => Arr([])
    case Arr(_) => v
    case Obj(fields) => if key in fields then EnsureList(fields[key]) else Arr([])
    case _ => Arr([v])
  }

  function Mapped(items: seq<Value>, item: Value -> Value): seq<Value> {
    seq(|items|, i requires 0 <= i < |items| => item(items[i]))
  }

  /** A list field: unwrapped from its container, each item brought into shape by the field's own
      `item`, and left out when it is empty. */
  function NormalizeField(fields: map<string, Value>, field: string, key: string,
                          item: Value -> Value): map<string, Value> {
    if field !in fields then fields
    else
      var items := Mapped(UnwrapContainer(fields[field], key).items, item);
      if items == [] then fields - {field} else fields[field := Arr(items)]
  }

  // ---- Attribute prefixes ----

  /** Attributes lose their prefix; the text becomes `name` unless there already is one. */
  predicate Moves(fields: map<string, Value>, key: string) {
    key in fields && (IsAt(key) || (key == "#text" && "name" !in fields))
  }

  function NewKey(key: string): string {
    if IsAt(key) then key[1..] else "name"
  }

  /** The original key whose value is found under this key once the keys in `moved` have been
      renamed. An attribute wins over the text, and both over what had the name before. */
  function SourceKey(fields: map<string, Value>, moved: set<string>, key: string): (source: Option<string>)
    ensures source.Some? && moved <= fields.Keys ==> source.value in fields
  {
    if "@" + key in moved then Some("@" + key)
    else if key == "name" && "#text" in moved then Some("#text")
    else if key in fields && key !in moved then Some(key)
    else None
  }

  /** Every key of the record after that, and its value. */
  ghost predicate IsRenamed(fields: map<string, Value>, moved: set<string>, m: map<string, Value>)
    requires moved <= fields.Keys
  {
    forall key ::
      && (key in m <==> SourceKey(fields, moved, key).Some?)
      && (key in m ==> m[key] == fields[SourceKey(fields, moved, key).value])
  }

  /** No attribute's own name begins with the prefix: none does in XML. */
  ghost predicate SinglePrefixes(fields: map<string, Value>) {
    forall key :: key in fields && IsAt(key) ==> !IsAt(key[1..])
  }

  ghost function Movers(fields: map<string, Value>): set<string> {
    set key | key in fields && Moves(fields, key)
  }

  /** The text is moved before any attribute, because its key comes first. */
  ghost predicate TextFirst(fields: map<string, Value>, moved: set<string>) {
    Moves(fields, "#text") && "#text" !in moved ==> forall key :: key in moved ==> !IsAt(key)
  }

  lemma RenameAttribute(fields: map<string, Value>, moved: set<string>, m: map<string, Value>, key: string)
    requires moved <= Movers(fields) && SinglePrefixes(fields) && IsRenamed(fields, moved, m)
    requires key in fields && IsAt(key) && key !in moved
    ensures key in m && IsRenamed(fields, moved + {key}, (m - {key})[key[1..] := m[key]])
  {
    assert SourceKey(fields, moved, key) == Some(key);
    var m' := (m - {key})[key[1..] := m[key]];
    forall k ensures (k in m' <==> SourceKey(fields, moved + {key}, k).Some?)
               && (k in m' ==> m'[k] == fields[SourceKey(fields, moved + {key}, k).value]) {
      assert k == key[1..] <==> "@" + k == key;
    }
  }

  lemma RenameText(fields: map<string, Value>, moved: set<string>, m: map<string, Value>)
    requires moved <= Movers(fields) && IsRenamed(fields, moved, m) && TextFirst(fields, moved)
    requires Moves(fields, "#text") && "#text" !in moved
    ensures "#text" in m && IsRenamed(fields, moved + {"#text"}, (m - {"#text"})["name" := m["#text"]])
  {
    assert SourceKey(fields, moved, "#text") == Some("#text");
    var m' := (m - {"#text"})["name" := m["#text"]];
    forall k ensures (k in m' <==> SourceKey(fields, moved + {"#text"}, k).Some?)
               && (k in m' ==> m'[k] == fields[SourceKey(fields, moved + {"#text"}, k).value]) {
      assert IsAt("@" + k) && "@" + k != "#text";
    }
  }

  /** In the order of the keys nothing with the prefix comes before the text. */
  lemma TextComesFirst(renames: seq<string>, i: nat)
    requires Increasing(renames) && i < |renames| && renames[i] == "#text"
    ensures forall key :: key in Elements(renames[..i]) ==> !IsAt(key)
  {
    forall key | key in Elements(renames[..i]) ensures !IsAt(key) {
      var j :| 0 <= j < i && renames[..i][j] == key;
      assert Less(renames[j], renames[i]);
    }
  }

  lemma NotYet(renames: seq<string>, i: nat)
    requires Increasing(renames) && i < |renames|
    ensures renames[i] !in Elements(renames[..i])
  {
    if renames[i] in Elements(renames[..i]) {
      var j :| 0 <= j < i && renames[..i][j] == renames[i];
      LessIrreflexive(renames[i]);
    }
  }

  lemma StaysIncreasing(keys: seq<string>, i: nat, renames: seq<string>)
    requires Increasing(keys) && Increasing(renames) && i < |keys|
    requires forall j :: 0 <= j < |renames| ==> renames[j] in Elements(keys[..i])
    ensures Increasing(renames + [keys[i]])
  {
    forall j | 0 <= j < |renames| ensures Less(renames[j], keys[i]) {
      var l :| 0 <= l < i && keys[..i][l] == renames[j];
    }
  }

  /** The keys to rename, in the order of the keys. */
  method CollectRenames(fields: map<string, Value>) returns (renames: seq<string>)
    ensures Increasing(renames) && Elements(renames) == Movers(fields)
  {
    var keys := Sorted(fields.Keys);
    SortedHolds(fields.Keys);
    renames := [];
    for i := 0 to |keys|
      invariant Increasing(renames)
      invariant forall j :: 0 <= j < |renames| ==> renames[j] in Elements(keys[..i])
      invariant Elements(renames) == set key | key in Elements(keys[..i]) && Moves(fields, key)
    {
      assert keys[..i + 1] == keys[..i] + [keys[i]];
      ElementsSnoc(keys[..i], keys[i]);
      ElementsSnoc(renames, keys[i]);
      assert keys[i] in Elements(keys);
      if IsAt(keys[i]) || (keys[i] == "#text" && "name" !in fields) {
        StaysIncreasing(keys, i, renames);
        renames := renames + [keys[i]];
      }
    }
    assert keys[..|keys|] == keys;
  }

  /** The renaming, key by key: nothing is lost but what an attribute of the same name displaces. */
  method StripAtPrefixes(fields: map<string, Value>) returns (stripped: map<string, Value>)
    ensures SinglePrefixes(fields) ==> IsRenamed(fields, Movers(fields), stripped)
  {
    var renames := CollectRenames(fields);
    stripped := fields;
    for i := 0 to |renames|
      invariant Elements(renames[..i]) <= Movers(fields)
      invariant SinglePrefixes(fields) ==> IsRenamed(fields, Elements(renames[..i]), stripped)
    {
      ghost var moved := Elements(renames[..i]);
      var from := renames[i];
      NotYet(renames, i);
      ElementsSnoc(renames[..i], from);
      assert renames[..i + 1] == renames[..i] + [from];
      assert from in Elements(renames);
      if SinglePrefixes(fields) {
        if IsAt(from) {
          RenameAttribute(fields, moved, stripped, from);
        } else {
          TextComesFirst(renames, i);
          RenameText(fields, moved, stripped);
        }
      }
      if from in stripped {
        stripped := (stripped - {from})[NewKey(from) := stripped[from]];
      }
    }
    assert renames[..|renames|] == renames;
  }

  /** No value is lost unless an attribute, or the text, takes its place. */
  lemma NothingElseIsLost(fields: map<string, Value>, m: map<string, Value>, key: string)
    requires SinglePrefixes(fields) && IsRenamed(fields, Movers(fields), m) && key in fields
    requires !IsAt(key) ==> "@" + key !in fields
    requires key == "#text" && "name" !in fields ==> "@name" !in fields
    ensures var place := if Moves(fields, key) then NewKey(key) else key;
            place in m && m[place] == fields[key]
  {
    if IsAt(key) {
      assert "@" + key[1..] == key;
      assert SourceKey(fields, Movers(fields), key[1..]) == Some(key);
    } else if Moves(fields, key) {
      assert "@" + "name" == "@name";
      assert SourceKey(fields, Movers(fields), "name") == Some("#text");
    } else {
      assert SourceKey(fields, Movers(fields), key) == Some(key);
    }
  }
}
