/** The canonical identifiers block of a release. */
module Identifiers {
  import opened Json
  import opened Sorting
  import opened Strings
  import opened Fields

  /** An alias namespace and the rule its values are normalized by. */
  datatype Namespace = Namespace(provider: string, normalization: string)

  /** The vocabulary decides all routing. Case mappings belong to the character tables. */
  datatype Vocabulary = Vocabulary(
    version: string,
    unmappedType: string,
    namespaces: map<string, Namespace>,
    identifierField: string,
    catalogNumberField: string,
    absentCatalogNumber: string,
    types: map<string, string>,
    lower: string -> string,
    upper: char -> string)

  const CATALOG_NUMBER_TYPE: string := "catalog_number"

  datatype Source = Source(provider: string, typeName: Option<string>, field: string)
  datatype Item = Item(typeId: string, value: string, description: Option<string>, source: Source)
  datatype Alias = Alias(provider: string, externalId: string)
  datatype Block = Block(version: string, items: seq<Item>, types: seq<string>, aliases: seq<Alias>,
                         unmapped: seq<string>)

  // ---- Alias values ----

  function DigitsOnly(value: string): string {
    if value == [] then []
    else (if '0' <= value[0] <= '9' then [value[0]] else []) + DigitsOnly(value[1..])
  }

  /** The words between runs of white space. `word` is the one being read. */
  function Words(value: string, word: string): seq<string> {
    if value == [] then (if word == [] then [] else [word])
    else if IsWhite(value[0]) then (if word == [] then [] else [word]) + Words(value[1..], [])
    else Words(value[1..], word + [value[0]])
  }

  function Join(words: seq<string>): string {
    if words == [] then [] else if |words| == 1 then words[0] else words[0] + " " + Join(words[1..])
  }

  function CollapseSpace(value: string): string {
    Join(Words(value, []))
  }

  /** Upper case, character by character; one character may become several. */
  function Upper(upper: char -> string, value: string): string {
    if value == [] then [] else upper(value[0]) + Upper(upper, value[1..])
  }

  /** A rule this build does not know mints nothing, and neither does a value that leaves nothing. */
  function NormalizeAliasValue(v: Vocabulary, normalization: string, value: string): Option<string> {
    var normalized :=
      if normalization == "digits_only" then Some(DigitsOnly(value))
      else if normalization == "collapse_space" then Some(CollapseSpace(value))
      else if normalization == "upper_collapse_space" then Some(Upper(v.upper, CollapseSpace(value)))
      else None;
    if normalized == Some([]) then None else normalized
  }

  // ---- Entries and items ----

  /** An entry that is an object and names a type and a value. */
  predicate NamesIdentifier(entry: Value) {
    entry.Obj? && Trimmed(entry.fields, "type").Some? && Trimmed(entry.fields, "value").Some?
  }

  function IdentifierItem(v: Vocabulary, entry: Value): Item
    requires NamesIdentifier(entry)
  {
    var rawType := Trimmed(entry.fields, "type").value;
    Item(if rawType in v.types then v.types[rawType] else v.unmappedType,
         Trimmed(entry.fields, "value").value, Trimmed(entry.fields, "description"),
         Source("discogs", Some(rawType), v.identifierField))
  }

  /** A label that states a catalogue number which is not the mark for having none. */
  predicate NamesCatalogNumber(v: Vocabulary, entry: Value) {
    entry.Obj? && Trimmed(entry.fields, "catno").Some?
      && v.lower(Trimmed(entry.fields, "catno").value) != v.absentCatalogNumber
  }

  function CatalogItem(v: Vocabulary, entry: Value): Item
    requires NamesCatalogNumber(v, entry)
  {
    Item(CATALOG_NUMBER_TYPE, Trimmed(entry.fields, "catno").value, None, Source("discogs", None, v.catalogNumberField))
  }

  function IdentifierItems(v: Vocabulary, entries: seq<Value>): seq<Item> {
    if entries == [] then []
    else
      var k := |entries| - 1;
      IdentifierItems(v, entries[..k]) + (if NamesIdentifier(entries[k]) then [IdentifierItem(v, entries[k])] else [])
  }

  function CatalogItems(v: Vocabulary, entries: seq<Value>): seq<Item> {
    if entries == [] then []
    else
      var k := |entries| - 1;
      CatalogItems(v, entries[..k]) + (if NamesCatalogNumber(v, entries[k]) then [CatalogItem(v, entries[k])] else [])
  }

  function AliasOf(v: Vocabulary, item: Item): Option<Alias> {
    if item.typeId !in v.namespaces then None
    else
      var namespace := v.namespaces[item.typeId];
      match NormalizeAliasValue(v, namespace.normalization, item.value)
      case None => None
      case Some(externalId) => Some(Alias(namespace.provider, externalId))
  }

  function Aliases(v: Vocabulary, items: seq<Item>): seq<Alias> {
    if items == [] then []
    else
      var k := |items| - 1;
      Aliases(v, items[..k]) + (if AliasOf(v, items[k]).Some? then [AliasOf(v, items[k]).value] else [])
  }

  function TypesOf(items: seq<Item>): seq<string> {
    seq(|items|, i requires 0 <= i < |items| => items[i].typeId)
  }

  /** The raw types of identifier items that the vocabulary does not know. */
  function UnmappedTypes(v: Vocabulary, items: seq<Item>): seq<string> {
    if items == [] then []
    else
      var k := |items| - 1;
      UnmappedTypes(v, items[..k])
      + (if items[k].source.typeName.Some? && items[k].source.typeName.value !in v.types
         then [items[k].source.typeName.value] else [])
  }

  predicate AliasLess(a: Alias, b: Alias) {
    Less(a.provider, b.provider) || (a.provider == b.provider && Less(a.externalId, b.externalId))
  }

  lemma AliasLessIsOrder()
    ensures Order(AliasLess)
  {
    LessIsOrder();
  }

  function SortedAliases(aliases: set<Alias>): seq<Alias> {
    AliasLessIsOrder();
    SortedBy(aliases, AliasLess)
  }

  method SortedUniqueAliases(aliases: seq<Alias>) returns (unique: seq<Alias>)
    ensures unique == SortedAliases(Elements(aliases))
  {
    AliasLessIsOrder();
    unique := SortedUnique(aliases, AliasLess);
  }

  /** The block over its items: identifiers first, then catalogue numbers, in source order. */
  function BlockOf(v: Vocabulary, items: seq<Item>): Block {
    Block(v.version, items, Sorted(Elements(TypesOf(items))), SortedAliases(Elements(Aliases(v, items))),
          Sorted(Elements(UnmappedTypes(v, items))))
  }

  function MapIdentifiers(v: Vocabulary, identifiers: Option<Value>, labels: Option<Value>): Block {
    BlockOf(v, IdentifierItems(v, Entries(identifiers)) + CatalogItems(v, Entries(labels)))
  }

  /** The mapper's loops. */
  method MapDiscogsIdentifiers(v: Vocabulary, identifiers: Option<Value>, labels: Option<Value>) returns (block: Block)
    ensures block == MapIdentifiers(v, identifiers, labels)
  {
    var found, unmapped := CollectIdentifiers(v, Entries(identifiers));
    var items := CollectCatalogNumbers(v, Entries(labels), found);
    var aliases := MintAliases(v, items);
    var uniqueTypes := SortedUniqueStrings(TypesOf(items));
    var uniqueAliases := SortedUniqueAliases(aliases);
    var uniqueUnmapped := SortedUniqueStrings(unmapped);
    CatalogItemsUntyped(v, Entries(labels));
    UntypedAreMapped(v, CatalogItems(v, Entries(labels)));
    UnmappedAppend(v, found, CatalogItems(v, Entries(labels)));
    assert unmapped + [] == unmapped;
    block := Block(v.version, items, uniqueTypes, uniqueAliases, uniqueUnmapped);
  }

  method CollectIdentifiers(v: Vocabulary, entries: seq<Value>) returns (items: seq<Item>, unmapped: seq<string>)
    ensures items == IdentifierItems(v, entries) && unmapped == UnmappedTypes(v, items)
  {
    items, unmapped := [], [];
    for i := 0 to |entries|
      invariant items == IdentifierItems(v, entries[..i]) && unmapped == UnmappedTypes(v, items)
    {
      assert entries[..i + 1][..i] == entries[..i];
      if !entries[i].Obj? {
        continue;
      }
      var rawType, value := Trimmed(entries[i].fields, "type"), Trimmed(entries[i].fields, "value");
      if rawType == None || value == None {
        continue;
      }
      var mapped := if rawType.value in v.types then Some(v.types[rawType.value]) else None;
      if mapped == None {
        unmapped := unmapped + [rawType.value];
      }
      var item := Item(if mapped.Some? then mapped.value else v.unmappedType, value.value,
                       Trimmed(entries[i].fields, "description"), Source("discogs", rawType, v.identifierField));
      assert (items + [item])[..|items|] == items;
      items := items + [item];
    }
    assert entries[..|entries|] == entries;
  }

  method CollectCatalogNumbers(v: Vocabulary, entries: seq<Value>, found: seq<Item>) returns (items: seq<Item>)
    ensures items == found + CatalogItems(v, entries)
  {
    items := found;
    for i := 0 to |entries|
      invariant items == found + CatalogItems(v, entries[..i])
    {
      assert entries[..i + 1][..i] == entries[..i];
      if !entries[i].Obj? {
        continue;
      }
      var number := Trimmed(entries[i].fields, "catno");
      if number == None || v.lower(number.value) == v.absentCatalogNumber {
        continue;
      }
      items := items + [Item(CATALOG_NUMBER_TYPE, number.value, None, Source("discogs", None, v.catalogNumberField))];
    }
    assert entries[..|entries|] == entries;
  }

  method MintAliases(v: Vocabulary, items: seq<Item>) returns (aliases: seq<Alias>)
    ensures aliases == Aliases(v, items)
  {
    aliases := [];
    for i := 0 to |items|
      invariant aliases == Aliases(v, items[..i])
    {
      assert items[..i + 1][..i] == items[..i];
      if items[i].typeId in v.namespaces {
        var namespace := v.namespaces[items[i].typeId];
        var externalId := NormalizeAliasValue(v, namespace.normalization, items[i].value);
        if externalId.Some? {
          aliases := aliases + [Alias(namespace.provider, externalId.value)];
        }
      }
    }
    assert items[..|items|] == items;
  }

  lemma {:induction false} UnmappedAppend(v: Vocabulary, a: seq<Item>, b: seq<Item>)
    ensures UnmappedTypes(v, a + b) == UnmappedTypes(v, a) + UnmappedTypes(v, b)
    decreases |b|
  {
    if b == [] {
      assert a + b == a;
    } else {
      assert (a + b)[..|a + b| - 1] == a + b[..|b| - 1];
      UnmappedAppend(v, a, b[..|b| - 1]);
    }
  }

  lemma {:induction false} CatalogItemsUntyped(v: Vocabulary, entries: seq<Value>)
    ensures forall x :: x in CatalogItems(v, entries) ==> x.source.typeName == None
  {
    if entries != [] {
      CatalogItemsUntyped(v, entries[..|entries| - 1]);
    }
  }

  lemma {:induction false} UntypedAreMapped(v: Vocabulary, items: seq<Item>)
    requires forall x :: x in items ==> x.source.typeName == None
    ensures UnmappedTypes(v, items) == []
  {
    if items != [] {
      UntypedAreMapped(v, items[..|items| - 1]);
    }
  }

  // ---- The lists are canonical ----

  /** Every list of the block is strictly increasing, and holds exactly what its items say. */
  lemma BlockIsCanonical(v: Vocabulary, identifiers: Option<Value>, labels: Option<Value>)
    ensures var b := MapIdentifiers(v, identifiers, labels);
            && Increasing(b.types) && IncreasingBy(b.aliases, AliasLess) && Increasing(b.unmapped)
            && (forall t :: t in Elements(b.types) <==> exists i :: 0 <= i < |b.items| && b.items[i].typeId == t)
            && Elements(b.aliases) == Elements(Aliases(v, b.items))
            && Elements(b.unmapped) == Elements(UnmappedTypes(v, b.items))
  {
    var b := MapIdentifiers(v, identifiers, labels);
    SortedHolds(Elements(TypesOf(b.items)));
    SortedHolds(Elements(UnmappedTypes(v, b.items)));
    AliasLessIsOrder();
    SortedElements(Elements(Aliases(v, b.items)), AliasLess);
    SortedIncreases(Elements(Aliases(v, b.items)), AliasLess);
    forall t ensures t in Elements(b.types) <==> exists i :: 0 <= i < |b.items| && b.items[i].typeId == t {
      if t in Elements(TypesOf(b.items)) {
        var i :| 0 <= i < |b.items| && TypesOf(b.items)[i] == t;
        assert b.items[i].typeId == t;
      }
      if i :| 0 <= i < |b.items| && b.items[i].typeId == t {
        assert TypesOf(b.items)[i] == t;
      }
    }
  }

  // ---- Order and repetition do not matter to the lists ----

  lemma {:induction false} ItemsFrom(v: Vocabulary, entries: seq<Value>, x: Item)
    ensures x in IdentifierItems(v, entries) <==>
              exists e :: e in entries && NamesIdentifier(e) && IdentifierItem(v, e) == x
  {
    if entries != [] {
      var k := |entries| - 1;
      ItemsFrom(v, entries[..k], x);
      assert entries == entries[..k] + [entries[k]];
    }
  }

  lemma {:induction false} CatalogFrom(v: Vocabulary, entries: seq<Value>, x: Item)
    ensures x in CatalogItems(v, entries) <==>
              exists e :: e in entries && NamesCatalogNumber(v, e) && CatalogItem(v, e) == x
  {
    if entries != [] {
      var k := |entries| - 1;
      CatalogFrom(v, entries[..k], x);
      assert entries == entries[..k] + [entries[k]];
    }
  }

  lemma {:induction false} AliasesFrom(v: Vocabulary, items: seq<Item>, a: Alias)
    ensures a in Aliases(v, items) <==> exists x :: x in items && AliasOf(v, x) == Some(a)
  {
    if items != [] {
      var k := |items| - 1;
      AliasesFrom(v, items[..k], a);
      assert items == items[..k] + [items[k]];
    }
  }

  predicate IsUnmapped(v: Vocabulary, x: Item, name: string) {
    x.source.typeName == Some(name) && name !in v.types
  }

  lemma {:induction false} UnmappedFrom(v: Vocabulary, items: seq<Item>, name: string)
    ensures name in UnmappedTypes(v, items) <==> exists x :: x in items && IsUnmapped(v, x, name)
  {
    if items != [] {
      var k := |items| - 1;
      UnmappedFrom(v, items[..k], name);
      assert items == items[..k] + [items[k]];
      assert IsUnmapped(v, items[k], name) <==> items[k].source.typeName == Some(name) && name !in v.types;
    }
  }

  lemma TypesMembers(a: seq<Item>, b: seq<Item>)
    requires SameMembers(a, b)
    ensures SameMembers(TypesOf(a), TypesOf(b))
  {
    forall t ensures t in TypesOf(a) ==> t in TypesOf(b) {
      TypesInclude(a, b, t);
    }
    forall t ensures t in TypesOf(b) ==> t in TypesOf(a) {
      TypesInclude(b, a, t);
    }
  }

  lemma TypesInclude(a: seq<Item>, b: seq<Item>, t: string)
    requires SameMembers(a, b)
    ensures t in TypesOf(a) ==> t in TypesOf(b)
  {
    if t in TypesOf(a) {
      var i :| 0 <= i < |a| && TypesOf(a)[i] == t;
      assert a[i] in a && a[i] in b;
      var j :| 0 <= j < |b| && b[j] == a[i];
      assert TypesOf(b)[j] == t;
    }
  }

  lemma ItemsMembers(v: Vocabulary, entries: seq<Value>, entries': seq<Value>, labels: seq<Value>, labels': seq<Value>)
    requires SameMembers(entries, entries') && SameMembers(labels, labels')
    ensures SameMembers(IdentifierItems(v, entries) + CatalogItems(v, labels),
                        IdentifierItems(v, entries') + CatalogItems(v, labels'))
  {
    forall x ensures x in IdentifierItems(v, entries) <==> x in IdentifierItems(v, entries') {
      ItemsFrom(v, entries, x);
      ItemsFrom(v, entries', x);
    }
    forall x ensures x in CatalogItems(v, labels) <==> x in CatalogItems(v, labels') {
      CatalogFrom(v, labels, x);
      CatalogFrom(v, labels', x);
    }
  }

  /** The block's lists depend only on which entries there are, not on their order or on how
      often one is repeated. */
  lemma ListsIgnoreOrder(v: Vocabulary, identifiers: Option<Value>, identifiers': Option<Value>, labels: Option<Value>,
                         labels': Option<Value>)
    requires SameMembers(Entries(identifiers), Entries(identifiers')) && SameMembers(Entries(labels), Entries(labels'))
    ensures var b, b' := MapIdentifiers(v, identifiers, labels), MapIdentifiers(v, identifiers', labels');
            b'.types == b.types && b'.aliases == b.aliases && b'.unmapped == b.unmapped
  {
    var items := MapIdentifiers(v, identifiers, labels).items;
    var items' := MapIdentifiers(v, identifiers', labels').items;
    ItemsMembers(v, Entries(identifiers), Entries(identifiers'), Entries(labels), Entries(labels'));
    TypesMembers(items, items');
    MembersElements(TypesOf(items), TypesOf(items'));
    forall a ensures a in Aliases(v, items) <==> a in Aliases(v, items') {
      AliasesFrom(v, items, a);
      AliasesFrom(v, items', a);
    }
    MembersElements(Aliases(v, items), Aliases(v, items'));
    forall name ensures name in UnmappedTypes(v, items) <==> name in UnmappedTypes(v, items') {
      UnmappedFrom(v, items, name);
      UnmappedFrom(v, items', name);
    }
    MembersElements(UnmappedTypes(v, items), UnmappedTypes(v, items'));
  }

  // ---- Provenance ----

  /** The raw entry an identifier item was made from, as far as the block keeps it. */
  function RawEntry(item: Item): Value {
    Obj(map["type" := Optional(item.source.typeName), "value" := Str(item.value),
            "description" := Optional(item.description)])
  }

  /** An item keeps every field of its entry, trimmed. */
  lemma ItemKeepsFields(v: Vocabulary, entry: Value, key: string)
    requires NamesIdentifier(entry) && (key == "type" || key == "value" || key == "description")
    ensures RawEntry(IdentifierItem(v, entry)).fields[key] == Optional(Trimmed(entry.fields, key))
  {
  }

  /** The raw list rebuilt from the items lifted from the identifiers field. */
  function RawEntries(v: Vocabulary, items: seq<Item>): seq<Value> {
    if items == [] then []
    else
      var k := |items| - 1;
      RawEntries(v, items[..k]) + (if items[k].source.field == v.identifierField then [RawEntry(items[k])] else [])
  }

  lemma {:induction false} RawAppend(v: Vocabulary, a: seq<Item>, b: seq<Item>)
    ensures RawEntries(v, a + b) == RawEntries(v, a) + RawEntries(v, b)
    decreases |b|
  {
    if b == [] {
      assert a + b == a;
    } else {
      assert (a + b)[..|a + b| - 1] == a + b[..|b| - 1];
      RawAppend(v, a, b[..|b| - 1]);
    }
  }

  lemma {:induction false} ItemsAppend(v: Vocabulary, a: seq<Value>, b: seq<Value>)
    ensures IdentifierItems(v, a + b) == IdentifierItems(v, a) + IdentifierItems(v, b)
    decreases |b|
  {
    if b == [] {
      assert a + b == a;
    } else {
      assert (a + b)[..|a + b| - 1] == a + b[..|b| - 1];
      ItemsAppend(v, a, b[..|b| - 1]);
    }
  }

  lemma {:induction false} NoneNamed(v: Vocabulary, entries: seq<Value>)
    requires forall i :: 0 <= i < |entries| ==> !NamesIdentifier(entries[i])
    ensures IdentifierItems(v, entries) == []
  {
    if entries != [] {
      NoneNamed(v, entries[..|entries| - 1]);
    }
  }

  lemma UntypedNamesNothing(item: Item)
    requires item.source.typeName == None
    ensures !NamesIdentifier(RawEntry(item))
  {
  }

  /** Catalogue numbers name no raw type, so a list rebuilt from them names no identifier, even
      if the vocabulary gives both origins the same field name. */
  lemma {:induction false} UntypedNameNothing(v: Vocabulary, items: seq<Item>)
    requires forall x :: x in items ==> x.source.typeName == None
    ensures forall i :: 0 <= i < |RawEntries(v, items)| ==> !NamesIdentifier(RawEntries(v, items)[i])
  {
    if items != [] {
      var k := |items| - 1;
      UntypedNameNothing(v, items[..k]);
      UntypedNamesNothing(items[k]);
    }
  }

  /** Mapping a rebuilt entry gives the item back. */
  lemma RawMapsBack(v: Vocabulary, entry: Value)
    requires NamesIdentifier(entry)
    ensures NamesIdentifier(RawEntry(IdentifierItem(v, entry)))
            && IdentifierItem(v, RawEntry(IdentifierItem(v, entry))) == IdentifierItem(v, entry)
  {
    var item := IdentifierItem(v, entry);
    var fields := RawEntry(item).fields;
    TrimmedIsUsable(entry.fields, "type");
    TrimmedIsUsable(entry.fields, "value");
    TrimmedIsUsable(entry.fields, "description");
    OptionalIsRead(fields, "type", item.source.typeName);
    UsableIsRead(fields, "value", item.value);
    OptionalIsRead(fields, "description", item.description);
  }

  lemma {:induction false} RawItemsMapBack(v: Vocabulary, entries: seq<Value>)
    ensures IdentifierItems(v, RawEntries(v, IdentifierItems(v, entries))) == IdentifierItems(v, entries)
  {
    if entries != [] {
      var k := |entries| - 1;
      var front := IdentifierItems(v, entries[..k]);
      RawItemsMapBack(v, entries[..k]);
      if NamesIdentifier(entries[k]) {
        var item := IdentifierItem(v, entries[k]);
        RawMapsBack(v, entries[k]);
        assert (front + [item])[..|front|] == front;
        assert RawEntries(v, front + [item]) == RawEntries(v, front) + [RawEntry(item)];
        var raw := RawEntries(v, front) + [RawEntry(item)];
        assert raw[..|raw| - 1] == RawEntries(v, front);
      } else {
        assert IdentifierItems(v, entries) == front;
      }
    }
  }

  /** Nothing is lost: the raw list rebuilt from the block's own items, with the same labels,
      maps to the same block, for every input. */
  lemma ProvenanceRoundTrip(v: Vocabulary, identifiers: Option<Value>, labels: Option<Value>)
    ensures var b := MapIdentifiers(v, identifiers, labels);
            MapIdentifiers(v, Some(Arr(RawEntries(v, b.items))), labels) == b
  {
    var found, numbers := IdentifierItems(v, Entries(identifiers)), CatalogItems(v, Entries(labels));
    RawAppend(v, found, numbers);
    CatalogItemsUntyped(v, Entries(labels));
    UntypedNameNothing(v, numbers);
    NoneNamed(v, RawEntries(v, numbers));
    RawItemsMapBack(v, Entries(identifiers));
    ItemsAppend(v, RawEntries(v, found), RawEntries(v, numbers));
    assert found + [] == found;
  }

  // ---- Alias values are canonical ----

  predicate IsWord(word: string) {
    word != [] && forall i :: 0 <= i < |word| ==> !IsWhite(word[i])
  }

  predicate AreWords(words: seq<string>) {
    forall i :: 0 <= i < |words| ==> IsWord(words[i])
  }

  lemma {:induction false} WordsAreWords(value: string, word: string)
    requires word == [] || IsWord(word)
    ensures AreWords(Words(value, word))
    decreases |value|
  {
    if value != [] {
      WordsAreWords(value[1..], if IsWhite(value[0]) then [] else word + [value[0]]);
    }
  }

  lemma {:induction false} ReadsWord(word: string, rest: string, begun: string)
    requires forall i :: 0 <= i < |word| ==> !IsWhite(word[i])
    ensures Words(word + rest, begun) == Words(rest, begun + word)
    decreases |word|
  {
    if word == [] {
      assert word + rest == rest && begun + word == begun;
    } else {
      assert (word + rest)[1..] == word[1..] + rest;
      ReadsWord(word[1..], rest, begun + [word[0]]);
      assert begun + [word[0]] + word[1..] == begun + word;
    }
  }

  lemma {:induction false} JoinedWords(words: seq<string>)
    requires AreWords(words)
    ensures Words(Join(words), []) == words
  {
    if words == [] {
    } else if |words| == 1 {
      ReadsWord(words[0], [], []);
      assert words[0] + [] == words[0] && [] + words[0] == words[0];
    } else {
      var rest := Join(words[1..]);
      JoinedWords(words[1..]);
      ReadsWord(words[0], " " + rest, []);
      assert words[0] + " " + rest == words[0] + (" " + rest) && [] + words[0] == words[0];
      assert (" " + rest)[1..] == rest;
    }
  }

  lemma {:induction false} DigitsTwice(value: string)
    ensures DigitsOnly(DigitsOnly(value)) == DigitsOnly(value)
  {
    if value != [] {
      DigitsTwice(value[1..]);
      if '0' <= value[0] <= '9' {
        assert DigitsOnly(value)[1..] == DigitsOnly(value[1..]);
      } else {
        assert DigitsOnly(value) == DigitsOnly(value[1..]);
      }
    }
  }

  /** The Unicode property of the character tables that the third rule depends on: white space has
      no case, and what a character becomes is in upper case and holds no white space. */
  ghost predicate IsCaseTable(upper: char -> string) {
    forall c :: if IsWhite(c) then upper(c) == [c] else IsWord(upper(c)) && Upper(upper, upper(c)) == upper(c)
  }

  lemma {:induction false} UpperJoins(upper: char -> string, a: string, b: string)
    ensures Upper(upper, a + b) == Upper(upper, a) + Upper(upper, b)
  {
    if a == [] {
      assert a + b == b;
    } else {
      assert (a + b)[1..] == a[1..] + b;
      UpperJoins(upper, a[1..], b);
    }
  }

  lemma {:induction false} UpperTwice(upper: char -> string, value: string)
    requires IsCaseTable(upper)
    ensures Upper(upper, Upper(upper, value)) == Upper(upper, value)
  {
    if value != [] {
      var first := upper(value[0]);
      UpperTwice(upper, value[1..]);
      UpperJoins(upper, first, Upper(upper, value[1..]));
      if IsWhite(value[0]) {
        assert Upper(upper, first) == first;
      }
    }
  }

  lemma {:induction false} UpperWord(upper: char -> string, word: string)
    requires IsCaseTable(upper) && IsWord(word)
    ensures IsWord(Upper(upper, word))
  {
    assert !IsWhite(word[0]) && IsWord(upper(word[0]));
    if |word| > 1 {
      assert IsWord(word[1..]);
      UpperWord(upper, word[1..]);
    }
  }

  function UpperWords(upper: char -> string, words: seq<string>): seq<string> {
    if words == [] then [] else [Upper(upper, words[0])] + UpperWords(upper, words[1..])
  }

  /** Upper case keeps words and the single spaces between them. */
  lemma {:induction false} UpperJoined(upper: char -> string, words: seq<string>)
    requires IsCaseTable(upper) && AreWords(words)
    ensures AreWords(UpperWords(upper, words)) && Upper(upper, Join(words)) == Join(UpperWords(upper, words))
  {
    if words != [] {
      UpperWord(upper, words[0]);
      UpperJoined(upper, words[1..]);
      var rest := Join(words[1..]);
      UpperJoins(upper, words[0], " " + rest);
      UpperJoins(upper, " ", rest);
      assert Upper(upper, " ") == " ";
      assert words[0] + " " + rest == words[0] + (" " + rest);
    }
  }

  lemma UpperCollapsed(upper: char -> string, value: string)
    requires IsCaseTable(upper)
    ensures var once := Upper(upper, CollapseSpace(value)); Upper(upper, CollapseSpace(once)) == once
  {
    var words := Words(value, []);
    WordsAreWords(value, []);
    UpperJoined(upper, words);
    JoinedWords(UpperWords(upper, words));
    UpperTwice(upper, Join(words));
  }

  /** A normalized alias value is left as it is by its own rule. */
  lemma AliasValuesAreCanonical(v: Vocabulary, normalization: string, value: string)
    requires IsCaseTable(v.upper)
    ensures var once := NormalizeAliasValue(v, normalization, value);
            once.Some? ==> NormalizeAliasValue(v, normalization, once.value) == once
  {
    DigitsTwice(value);
    WordsAreWords(value, []);
    JoinedWords(Words(value, []));
    UpperCollapsed(v.upper, value);
  }
}
