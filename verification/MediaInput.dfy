/** How the mapper reads a format, in each shape it is delivered in, and the lists it makes of it. */
module MediaInput {
  import opened Json
  import opened Sorting
  import opened Strings
  import opened Fields
  import opened Media
  import opened MediaFacts
  import opened MediaRelease

  // ---- Descriptions, in every shape ----

  /** A value under `description`, this many times. */
  function Wrapped(value: Value, times: nat): Value {
    if times == 0 then value else Obj(map["description" := Wrapped(value, times - 1)])
  }

  function TextList(texts: seq<string>): Value {
    Arr(seq(|texts|, i requires 0 <= i < |texts| => Str(texts[i])))
  }

  lemma {:induction false} WrappingIsTransparent(value: Value, times: nat)
    ensures FlattenDescriptions(Wrapped(value, times)) == FlattenDescriptions(value)
  {
    if times > 0 {
      WrappingIsTransparent(value, times - 1);
    }
  }

  lemma {:induction false} TextsAppend(a: seq<Value>, b: seq<Value>)
    ensures Texts(a + b) == Texts(a) + Texts(b)
    decreases |b|
  {
    if b == [] {
      assert a + b == a;
    } else {
      var k := |b| - 1;
      assert (a + b)[..|a + b| - 1] == a + b[..k];
      TextsAppend(a, b[..k]);
    }
  }

  lemma {:induction false} TextsOfList(texts: seq<string>)
    ensures Texts(TextList(texts).items) == texts
  {
    if texts != [] {
      var k := |texts| - 1;
      TextsOfList(texts[..k]);
      assert TextList(texts).items[..k] == TextList(texts[..k]).items;
    }
  }

  /** The fields of a format with these descriptions. */
  predicate Describes(fields: map<string, Value>, descriptions: Value) {
    "descriptions" in fields && fields["descriptions"] == descriptions
  }

  /** Descriptions are read alike as a list, as a single text, and wrapped as the dump has them: the
      texts, in order. */
  lemma DescriptionsAreRead(fields: map<string, Value>, texts: seq<string>, times: nat)
    ensures Describes(fields, Wrapped(TextList(texts), times)) ==> SourceOf(fields).descriptions == texts
    ensures |texts| == 1 && Describes(fields, Wrapped(Str(texts[0]), times)) ==> SourceOf(fields).descriptions == texts
    ensures "descriptions" !in fields ==> SourceOf(fields).descriptions == []
  {
    TextsOfList(texts);
    WrappingIsTransparent(TextList(texts), times);
    if |texts| == 1 {
      WrappingIsTransparent(Str(texts[0]), times);
      assert [texts[0]] == texts;
    }
  }

  /** In a list what is no text is passed over, wherever it stands, and nothing else is. */
  lemma OnlyTextsCount(fields: map<string, Value>, before: seq<Value>, v: Value, after: seq<Value>, times: nat)
    requires Describes(fields, Wrapped(Arr(before + [v] + after), times))
    ensures SourceOf(fields).descriptions == Texts(before) + (if v.Str? then [v.text] else []) + Texts(after)
  {
    WrappingIsTransparent(Arr(before + [v] + after), times);
    TextsAppend(before + [v], after);
    TextsAppend(before, [v]);
    assert [v][..0] == [];
  }

  /** A value that is neither a list nor a text, and does not wrap one, says nothing. */
  lemma NothingElseDescribes(fields: map<string, Value>, v: Value, times: nat)
    requires Describes(fields, Wrapped(v, times))
    requires v.Null? || v.Bool? || v.Num? || (v.Obj? && "description" !in v.fields)
    ensures SourceOf(fields).descriptions == []
  {
    WrappingIsTransparent(v, times);
  }

  /** The name and the text are the strings under these keys, as they were received. */
  lemma NameAndTextAreRead(fields: map<string, Value>, text: string)
    ensures SourceOf(fields).name == Some(text) <==> "name" in fields && fields["name"] == Str(text)
    ensures SourceOf(fields).text == Some(text) <==> "text" in fields && fields["text"] == Str(text)
  {
  }

  /** The quantity is read from this key, and is one without it. */
  lemma QuantityIsRead(t: Taxonomy, v: Value)
    requires ItemOf(t, v).Some?
    ensures "qty" in v.fields ==> ItemOf(t, v).value.qty == ParseQty(Some(v.fields["qty"]))
    ensures "qty" !in v.fields ==> ItemOf(t, v).value.qty == 1
  {
    ItemKeepsSource(t, v);
    OtherQuantities(None);
  }

  /** The same format, with its descriptions wrapped once more. */
  predicate SameFormat(v: Value, v': Value) {
    || v == v'
    || (v.Obj? && "descriptions" in v.fields
        && v' == Obj(v.fields["descriptions" := Obj(map["description" := v.fields["descriptions"]])]))
  }

  lemma SameFormatReadsAlike(t: Taxonomy, block: Block, v: Value, v': Value)
    requires SameFormat(v, v')
    ensures MapFormat(t, block, v) == MapFormat(t, block, v')
  {
    if v != v' {
      WrappingIsTransparent(v.fields["descriptions"], 1);
      assert Wrapped(v.fields["descriptions"], 0) == v.fields["descriptions"];
      assert FlattenDescriptions(v'.fields["descriptions"]) == FlattenDescriptions(v.fields["descriptions"]);
      assert SourceOf(v'.fields) == SourceOf(v.fields) && QtyOf(v'.fields) == QtyOf(v.fields);
    }
  }

  /** The dump's shape and the flat one map to the same block. */
  lemma {:induction false} EntriesReadAlike(t: Taxonomy, entries: seq<Value>, entries': seq<Value>)
    requires |entries'| == |entries| && forall i :: 0 <= i < |entries| ==> SameFormat(entries[i], entries'[i])
    ensures MapEntries(t, entries) == MapEntries(t, entries')
  {
    if entries != [] {
      var k := |entries| - 1;
      EntriesReadAlike(t, entries[..k], entries'[..k]);
      SameFormatReadsAlike(t, MapEntries(t, entries[..k]), entries[k], entries'[k]);
    }
  }

  lemma ShapesAgree(t: Taxonomy, entries: seq<Value>, entries': seq<Value>)
    requires |entries'| == |entries| && forall i :: 0 <= i < |entries| ==> SameFormat(entries[i], entries'[i])
    ensures MapFormats(t, Some(Arr(entries))) == MapFormats(t, Some(Arr(entries')))
  {
    EntriesReadAlike(t, entries, entries');
  }

  lemma {:induction false} NoFormats(t: Taxonomy, entries: seq<Value>)
    requires forall i :: 0 <= i < |entries| ==> !entries[i].Obj?
    ensures MapEntries(t, entries) == EmptyBlock(t)
  {
    if entries != [] {
      NoFormats(t, entries[..|entries| - 1]);
    }
  }

  /** Without a list, and from a list without objects, comes the empty block. */
  lemma NothingToMap(t: Taxonomy, formats: Option<Value>)
    requires formats.None? || !formats.value.Arr? ||
             forall i :: 0 <= i < |formats.value.items| ==> !formats.value.items[i].Obj?
    ensures MapFormats(t, formats) == Block(t.version, [], [], None, [], [], None, None, [], [], [])
  {
    NoFormats(t, Entries(formats));
    var none: seq<string> := [];
    assert Elements(none) == {} && Sorted({}) == [];
  }

  // ---- The lists of an item ----

  lemma {:induction false} DescribedLists(t: Taxonomy, item: Item, ds: seq<string>)
    ensures DescribeItemAll(t, item, ds).variants == item.variants + Stated(t, ds, "variant")
    ensures DescribeItemAll(t, item, ds).appearance == item.appearance + Stated(t, ds, "appearance")
  {
    if ds != [] {
      var k := |ds| - 1;
      DescribedLists(t, item, ds[..k]);
      if ds[k] in t.descriptions {
        DescriptionLists(t, DescribeItemAll(t, item, ds[..k]), ds[k]);
      }
    }
  }

  lemma DescriptionLists(t: Taxonomy, item: Item, d: string)
    requires d in t.descriptions
    ensures DescribeItem(item, t.descriptions[d]).variants == item.variants + StatedBy(t, d, "variant")
    ensures DescribeItem(item, t.descriptions[d]).appearance == item.appearance + StatedBy(t, d, "appearance")
  {
  }

  lemma FinishedLists(t: Taxonomy, item: Item)
    ensures FinishItem(t, item).variants == Sorted(Elements(item.variants))
    ensures FinishItem(t, item).appearance == Sorted(Elements(item.appearance))
  {
    WithDefaultsFills(t, Resolved(t, item), "codec");
  }

  /** An item's variants and appearances, each once and in order, are exactly those for which one of
      its descriptions has a rule, and the variant that its format's name stands for. */
  lemma ItemLists(t: Taxonomy, v: Value, value: string)
    requires ItemOf(t, v).Some?
    ensures var item := ItemOf(t, v).value; var entry := t.formats[SourceOf(v.fields).name.value];
            && Increasing(item.variants) && Increasing(item.appearance)
            && (value in item.variants <==> entry.variant == Some(value) || Says(t, v, "variant", value))
            && (value in item.appearance <==> Says(t, v, "appearance", value))
  {
    var source := SourceOf(v.fields);
    var entry := t.formats[source.name.value];
    var made := EntryItem(entry, NewItem(source)).(qty := QtyOf(v.fields));
    var described := DescribeItemAll(t, made, source.descriptions);
    DescribedLists(t, made, source.descriptions);
    FinishedLists(t, described);
    SortedHolds(Elements(described.variants));
    SortedHolds(Elements(described.appearance));
    ListHolds(described.variants, value);
    ListHolds(described.appearance, value);
    StatedIff(t, source.descriptions, "variant", value);
    StatedIff(t, source.descriptions, "appearance", value);
  }

  // ---- The lists of the block ----

  lemma {:induction false} FamiliesIff(items: seq<Item>, family: string)
    ensures family in Families(items) <==> exists i :: 0 <= i < |items| && items[i].family == Some(family)
  {
    if items != [] {
      var k := |items| - 1;
      FamiliesIff(items[..k], family);
      if i :| 0 <= i < |items| && items[i].family == Some(family) {
        assert i < k ==> items[..k][i].family == Some(family);
      }
    }
  }

  lemma {:induction false} VersionStays(t: Taxonomy, entries: seq<Value>)
    ensures MapEntries(t, entries).version == t.version
  {
    if entries != [] {
      var k := |entries| - 1;
      VersionStays(t, entries[..k]);
      if entries[k].Obj? {
        DescriptionsKeepVersion(t, Named(t, MapEntries(t, entries[..k]), entries[k]),
                                SourceOf(entries[k].fields).descriptions);
      }
    }
  }

  lemma {:induction false} DescriptionsKeepVersion(t: Taxonomy, block: Block, ds: seq<string>)
    ensures DescribeBlockAll(t, block, ds).version == block.version
  {
    if ds != [] {
      DescriptionsKeepVersion(t, block, ds[..|ds| - 1]);
    }
  }

  /** Every list of the block is strictly increasing; the families are those of its items, and the
      version is the taxonomy's. */
  lemma BlockIsCanonical(t: Taxonomy, formats: Option<Value>, family: string)
    ensures var b := MapFormats(t, formats);
            && b.version == t.version
            && Increasing(b.families) && Increasing(b.traits) && Increasing(b.edition) && Increasing(b.flags)
            && (family in b.families <==> exists i :: 0 <= i < |b.items| && b.items[i].family == Some(family))
  {
    var before := MapEntries(t, Entries(formats));
    VersionStays(t, Entries(formats));
    SortedHolds(Elements(Families(before.items)));
    SortedHolds(Elements(before.traits));
    SortedHolds(Elements(before.edition));
    SortedHolds(Elements(before.flags));
    ListHolds(Families(before.items), family);
    FamiliesIff(before.items, family);
  }
}
