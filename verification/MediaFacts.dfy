/** The media mapping loses nothing, and what it produces is canonical. */
module MediaFacts {
  import opened Json
  import opened Sorting
  import opened Strings
  import opened Fields
  import opened Media
  import opened Numbers

  // ---- Attributes: the first usable statement, else the medium's default ----

  function Get(item: Item, attribute: string): Option<Value> {
    if attribute == "size_inches" then (if item.sizeInches.Some? then Some(Num(item.sizeInches.value)) else None)
    else if attribute == "speed_rpm" then (if item.speedRpm.Some? then Some(Num(item.speedRpm.value)) else None)
    else if attribute == "channels" then (if item.channels.Some? then Some(Str(item.channels.value)) else None)
    else if attribute == "codec" then (if item.codec.Some? then Some(Str(item.codec.value)) else None)
    else None
  }

  /** The value, if it is of the attribute's kind. */
  function Usable(attribute: string, v: Value): Option<Value> {
    if attribute == "size_inches" || attribute == "speed_rpm" then (if v.Num? then Some(v) else None)
    else if attribute == "channels" || attribute == "codec" then (if v.Str? then Some(v) else None)
    else None
  }

  /** What a description says about an attribute. */
  function States(t: Taxonomy, description: string, attribute: string): Option<Value> {
    if description in t.descriptions && t.descriptions[description].target == attribute
    then Usable(attribute, t.descriptions[description].value) else None
  }

  function DefaultOf(t: Taxonomy, medium: Option<string>, attribute: string): Option<Value> {
    if medium.Some? && medium.value in t.media && attribute in t.media[medium.value].defaults
    then Usable(attribute, t.media[medium.value].defaults[attribute]) else None
  }

  /** The same item up to its four attributes. */
  predicate SameButAttributes(a: Item, b: Item) {
    && a.family == b.family && a.medium == b.medium && a.qty == b.qty
    && a.variants == b.variants && a.appearance == b.appearance && a.source == b.source
  }

  lemma FillSets(item: Item, attribute: string, v: Value, other: string)
    ensures Get(FillAttribute(item, attribute, v), other)
         == if other == attribute && Get(item, other) == None then Usable(attribute, v) else Get(item, other)
    ensures SameButAttributes(item, FillAttribute(item, attribute, v))
  {
  }

  lemma {:induction false} DefaultsFill(item: Item, defaults: map<string, Value>, keys: seq<string>, attribute: string)
    ensures Get(FillDefaults(item, defaults, keys), attribute)
         == if Get(item, attribute) == None && attribute in Elements(keys) && attribute in defaults
           then Usable(attribute, defaults[attribute])
            else Get(item, attribute)
    ensures SameButAttributes(item, FillDefaults(item, defaults, keys))
  {
    if keys != [] {
      var k := |keys| - 1;
      DefaultsFill(item, defaults, keys[..k], attribute);
      ElementsSnoc(keys[..k], keys[k]);
      assert keys == keys[..k] + [keys[k]];
      if keys[k] in defaults {
        FillSets(FillDefaults(item, defaults, keys[..k]), keys[k], defaults[keys[k]], attribute);
      }
    }
  }

  lemma WithDefaultsFills(t: Taxonomy, item: Item, attribute: string)
    ensures Get(WithDefaults(t, item), attribute)
         == if Get(item, attribute) == None then DefaultOf(t, item.medium, attribute) else Get(item, attribute)
    ensures SameButAttributes(item, WithDefaults(t, item))
  {
    if item.medium.Some? && item.medium.value in t.media {
      var defaults := t.media[item.medium.value].defaults;
      SortedHolds(defaults.Keys);
      DefaultsFill(item, defaults, Sorted(defaults.Keys), attribute);
    }
  }

  lemma DescribeSets(item: Item, rule: Rule, attribute: string)
    ensures Get(DescribeItem(item, rule), attribute)
         == if rule.target == attribute && Get(item, attribute) == None then Usable(attribute, rule.value)
           else Get(item, attribute)
    ensures var described := DescribeItem(item, rule);
            described.family == item.family && described.medium == item.medium && described.qty == item.qty
              && described.source == item.source
  {
    if IsAttribute(rule.target) {
      FillSets(item, rule.target, rule.value, attribute);
    }
  }

  lemma {:induction false} Described(t: Taxonomy, item: Item, descriptions: seq<string>, attribute: string)
    ensures var described := DescribeItemAll(t, item, descriptions);
            && described.family == item.family && described.medium == item.medium && described.qty == item.qty
              && described.source == item.source
            && (Get(item, attribute).Some? ==> Get(described, attribute) == Get(item, attribute))
            && (Get(item, attribute) == None
                && (forall i :: 0 <= i < |descriptions| ==> States(t, descriptions[i], attribute) == None) ==>
                  Get(described, attribute) == None)
    ensures forall i :: Get(item, attribute) == None && IsFirst(t, descriptions, attribute, i) ==>
              Get(DescribeItemAll(t, item, descriptions), attribute) == States(t, descriptions[i], attribute)
  {
    if descriptions != [] {
      var k := |descriptions| - 1;
      var front := descriptions[..k];
      var before := DescribeItemAll(t, item, front);
      Described(t, item, front, attribute);
      if descriptions[k] in t.descriptions {
        DescribeSets(before, t.descriptions[descriptions[k]], attribute);
      }
      forall i | Get(item, attribute) == None && IsFirst(t, descriptions, attribute, i)
        ensures Get(DescribeItemAll(t, item, descriptions), attribute) == States(t, descriptions[i], attribute)
      {
        if i < k {
          assert IsFirst(t, front, attribute, i);
        } else {
          assert forall j :: 0 <= j < |front| ==> States(t, front[j], attribute) == None;
        }
      }
    }
  }

  /** Position i holds the first description that says something usable about the attribute. */
  ghost predicate IsFirst(t: Taxonomy, descriptions: seq<string>, attribute: string, i: int) {
    && 0 <= i < |descriptions| && States(t, descriptions[i], attribute).Some?
    && forall j :: 0 <= j < i ==> States(t, descriptions[j], attribute) == None
  }

  // ---- Quantities ----

  predicate AllWhite(text: string) {
    forall i :: 0 <= i < |text| ==> IsWhite(text[i])
  }

  predicate IsSign(text: string) {
    text == "" || text == "+" || text == "-"
  }

  /** A text as it is read: white space, a sign, digits, and whatever follows them. */
  predicate ReadsAs(text: string, white: string, sign: string, digits: string, rest: string) {
    && text == white + (sign + (digits + rest))
    && AllWhite(white) && IsSign(sign) && OnlyDigits(digits) && (rest != [] ==> !IsDigit(rest[0]))
    && (sign == "" && digits == "" && rest != [] ==> !IsWhite(rest[0]) && rest[0] != '+' && rest[0] != '-')
  }

  lemma {:induction false} TrimsWhite(white: string, rest: string)
    requires AllWhite(white) && (rest != [] ==> !IsWhite(rest[0]))
    ensures TrimStart(white + rest) == rest
    decreases |white|
  {
    if white == [] {
      assert white + rest == rest;
    } else {
      assert (white + rest)[1..] == white[1..] + rest;
      TrimsWhite(white[1..], rest);
    }
  }

  lemma LeadingIntegerReads(text: string, white: string, sign: string, digits: string, rest: string)
    requires ReadsAs(text, white, sign, digits, rest)
    ensures ParseLeadingInteger(text)
            == if digits == "" || Number(digits) >= I64_LIMIT then None
               else Some(if sign == "-" then -(Number(digits) as int) else Number(digits))
  {
    var trimmed, unsigned := sign + (digits + rest), digits + rest;
    assert digits != [] ==> unsigned[0] == digits[0] && IsDigit(unsigned[0]);
    assert sign == "" ==> trimmed == unsigned;
    assert sign != "" ==> trimmed[0] == sign[0] && trimmed[1..] == unsigned;
    TrimsWhite(white, trimmed);
    LeadingDigitsEnd(digits, rest);
  }

  /** A quantity given as text is the whole number that stands after white space and a plus sign,
      if any, up to the first character that is no digit; it is one if there is no number, if the
      number is below one, and if it does not fit into 64 bits. */
  lemma QtyIsLeading(text: string, white: string, sign: string, digits: string, rest: string)
    requires ReadsAs(text, white, sign, digits, rest)
    ensures ParseQty(Some(Str(text)))
            == if digits != "" && sign != "-" && 1 <= Number(digits) < I64_LIMIT then Number(digits) else 1
  {
    LeadingIntegerReads(text, white, sign, digits, rest);
  }

  /** Every text reads in one way. */
  lemma {:induction false} EveryTextReads(text: string)
    returns (white: string, sign: string, digits: string, rest: string)
    ensures ReadsAs(text, white, sign, digits, rest)
    decreases |text|
  {
    if text != [] && IsWhite(text[0]) {
      white, sign, digits, rest := EveryTextReads(text[1..]);
      assert text == [text[0]] + white + (sign + (digits + rest));
      white := [text[0]] + white;
    } else {
      white, sign := "", if text != [] && (text[0] == '+' || text[0] == '-') then [text[0]] else "";
      digits := LeadingDigits(text[|sign|..]);
      rest := DigitsEnd(text[|sign|..]);
    }
  }

  lemma {:induction false} DigitsEnd(text: string) returns (rest: string)
    ensures text == LeadingDigits(text) + rest && (rest != [] ==> !IsDigit(rest[0]))
  {
    if text != [] && IsDigit(text[0]) {
      rest := DigitsEnd(text[1..]);
      assert text == [text[0]] + text[1..];
    } else {
      rest := text;
    }
  }

  /** A number counts as itself if it is at least one and fits, a missing quantity and every other
      kind of value as one. */
  lemma OtherQuantities(value: Option<Value>)
    requires value.None? || !value.value.Str?
    ensures ParseQty(value)
            == if value.Some? && value.value.Num? && 1 <= value.value.number < I64_LIMIT then value.value.number else 1
  {
    if value.Some? && value.value.Num? {
      var n := value.value.number;
      var magnitude: nat := if n < 0 then -n else n;
      DecimalReads(magnitude);
      assert Decimal(magnitude) + [] == Decimal(magnitude);
      if n < 0 {
        LeadingIntegerReads(Decimal(n), "", "-", Decimal(magnitude), "");
      } else {
        LeadingIntegerReads(Decimal(n), "", "", Decimal(magnitude), "");
      }
    }
  }

  // ---- Items ----

  lemma FinishKeeps(t: Taxonomy, item: Item, attribute: string)
    ensures var finished := FinishItem(t, item);
            && finished.qty == item.qty && finished.source == item.source
            && finished.medium == Resolved(t, item).medium && finished.family == Resolved(t, item).family
            && Get(finished, attribute) == if Get(item, attribute) == None then DefaultOf(t, finished.medium, attribute)
              else Get(item, attribute)
  {
    WithDefaultsFills(t, Resolved(t, item), attribute);
  }

  /** Each attribute of an item is the first usable value its descriptions state, and where they
      state none, the default of its medium. */
  lemma FirstStatementWins(t: Taxonomy, v: Value, attribute: string)
    requires ItemOf(t, v).Some?
    ensures var item := ItemOf(t, v).value; var ds := SourceOf(v.fields).descriptions;
            && (forall i :: IsFirst(t, ds, attribute, i) ==> Get(item, attribute) == States(t, ds[i], attribute))
            && ((forall i :: 0 <= i < |ds| ==> States(t, ds[i], attribute) == None) ==>
                Get(item, attribute) == DefaultOf(t, item.medium, attribute))
  {
    var source := SourceOf(v.fields);
    var made := EntryItem(t.formats[source.name.value], NewItem(source)).(qty := QtyOf(v.fields));
    assert Get(made, attribute) == None;
    Described(t, made, source.descriptions, attribute);
    FinishKeeps(t, DescribeItemAll(t, made, source.descriptions), attribute);
  }

  /** An item keeps its format's name, descriptions, text and quantity, and always has a medium. */
  lemma ItemKeepsSource(t: Taxonomy, v: Value)
    requires ItemOf(t, v).Some?
    ensures var item := ItemOf(t, v).value;
            item.source == SourceOf(v.fields) && item.qty == QtyOf(v.fields) >= 1 && item.medium.Some?
  {
    var source := SourceOf(v.fields);
    var made := EntryItem(t.formats[source.name.value], NewItem(source)).(qty := QtyOf(v.fields));
    Described(t, made, source.descriptions, "codec");
    FinishKeeps(t, DescribeItemAll(t, made, source.descriptions), "codec");
  }

  /** A value as a family's rule looks it up. */
  function KeyText(v: Value): string {
    match v
    case Num(n) => Decimal(n)
    case Str(text) => text
    case _ => ""
  }

  lemma KeyIsText(item: Item, attribute: string)
    ensures AttributeKey(item, attribute)
            == if Get(item, attribute).Some? then Some(KeyText(Get(item, attribute).value)) else None
  {
  }

  function ResolveOf(t: Taxonomy, family: string): Option<Resolve> {
    if family in t.families then t.families[family] else None
  }

  /** The medium that a family's rule picks for the value of its attribute. */
  function MediumFor(family: string, resolve: Resolve, stated: Option<Value>): string {
    if stated.Some? && KeyText(stated.value) in resolve.media then resolve.media[KeyText(stated.value)]
    else family + "_unspecified"
  }

  /** An item is of the medium and family its format's name stands for. A medium alone brings its
      family. A family alone picks the medium for the first usable value that the descriptions state
      of the attribute its rule names, and is unspecified where they state none, where the rule
      knows no medium for the value, and where the family has no rule. */
  lemma ItemIsOfItsFormat(t: Taxonomy, v: Value)
    requires ItemOf(t, v).Some?
    ensures var item := ItemOf(t, v).value; var entry := t.formats[SourceOf(v.fields).name.value];
            && (entry.medium.Some? ==> item.medium == entry.medium)
            && (entry.family.Some? ==> item.family == entry.family)
            && (entry.family.None? ==>
                  item.family
                  == if entry.medium.value in t.media then Some(t.media[entry.medium.value].family) else None)
    ensures var item := ItemOf(t, v).value; var entry := t.formats[SourceOf(v.fields).name.value];
            var ds := SourceOf(v.fields).descriptions;
            entry.medium.None? ==>
              var family := entry.family.value; var resolve := ResolveOf(t, family);
              && (resolve.None? ==> item.medium == Some(family + "_unspecified"))
              && (resolve.Some? ==>
                    var attribute := resolve.value.attribute;
                    && (forall i :: IsFirst(t, ds, attribute, i) ==>
                          item.medium == Some(MediumFor(family, resolve.value, States(t, ds[i], attribute))))
                    && ((forall i :: 0 <= i < |ds| ==> States(t, ds[i], attribute) == None) ==>
                          item.medium == Some(MediumFor(family, resolve.value, None))))
  {
    var source := SourceOf(v.fields);
    var made := EntryItem(t.formats[source.name.value], NewItem(source)).(qty := QtyOf(v.fields));
    var described := DescribeItemAll(t, made, source.descriptions);
    Described(t, made, source.descriptions, "codec");
    FinishKeeps(t, described, "codec");
    if described.medium.None? {
      var resolve := ResolveOf(t, described.family.value);
      if resolve.Some? {
        Described(t, made, source.descriptions, resolve.value.attribute);
        KeyIsText(described, resolve.value.attribute);
      }
    }
  }

  /** The items of a list, one entry after another. */
  function ItemsOf(t: Taxonomy, entries: seq<Value>): seq<Item> {
    if entries == [] then []
    else
      var k := |entries| - 1;
      ItemsOf(t, entries[..k]) + (if ItemOf(t, entries[k]).Some? then [ItemOf(t, entries[k]).value] else [])
  }

  lemma {:induction false} DescriptionsKeepItems(t: Taxonomy, block: Block, descriptions: seq<string>)
    ensures DescribeBlockAll(t, block, descriptions).items == block.items
    ensures DescribeBlockAll(t, block, descriptions).unmappedFormats == block.unmappedFormats
  {
    if descriptions != [] {
      DescriptionsKeepItems(t, block, descriptions[..|descriptions| - 1]);
    }
  }

  lemma FactsKeepItems(t: Taxonomy, block: Block, v: Value)
    ensures FactsOf(t, block, v).items == block.items
    ensures FactsOf(t, block, v).unmappedFormats == block.unmappedFormats + UnknownName(t, v)
  {
    if v.Obj? {
      DescriptionsKeepItems(t, Named(t, block, v), SourceOf(v.fields).descriptions);
    }
  }

  /** The name of a format that the taxonomy does not know. */
  function UnknownName(t: Taxonomy, v: Value): seq<string> {
    if v.Obj? && SourceOf(v.fields).name.Some? && SourceOf(v.fields).name.value !in t.formats
      then [SourceOf(v.fields).name.value] else []
  }

  /** Items come in source order, exactly one for each entry that makes one. */
  lemma {:induction false} ItemsInOrder(t: Taxonomy, entries: seq<Value>)
    ensures MapEntries(t, entries).items == ItemsOf(t, entries)
  {
    if entries != [] {
      var k := |entries| - 1;
      ItemsInOrder(t, entries[..k]);
      FactsKeepItems(t, MapEntries(t, entries[..k]), entries[k]);
    }
  }

  lemma {:induction false} UnknownFormats(t: Taxonomy, entries: seq<Value>, name: string)
    ensures name in MapEntries(t, entries).unmappedFormats <==> exists v :: v in entries && UnknownName(t, v) == [name]
  {
    if entries != [] {
      var k := |entries| - 1;
      UnknownFormats(t, entries[..k], name);
      FactsKeepItems(t, MapEntries(t, entries[..k]), entries[k]);
      assert entries == entries[..k] + [entries[k]];
      assert name in UnknownName(t, entries[k]) <==> UnknownName(t, entries[k]) == [name];
    }
  }

  // ---- Descriptions ----

  predicate SaysUnknown(t: Taxonomy, v: Value, description: string) {
    v.Obj? && description in SourceOf(v.fields).descriptions && description !in t.descriptions
  }

  lemma {:induction false} UnknownAdded(t: Taxonomy, block: Block, descriptions: seq<string>, d: string)
    ensures d in DescribeBlockAll(t, block, descriptions).unmappedDescriptions <==>
            d in block.unmappedDescriptions || (d in descriptions && d !in t.descriptions)
  {
    if descriptions != [] {
      var k := |descriptions| - 1;
      UnknownAdded(t, block, descriptions[..k], d);
      assert descriptions == descriptions[..k] + [descriptions[k]];
    }
  }

  lemma FactsAddUnknown(t: Taxonomy, block: Block, v: Value, d: string)
    ensures d in FactsOf(t, block, v).unmappedDescriptions <==> d in block.unmappedDescriptions || SaysUnknown(t, v, d)
  {
    if v.Obj? {
      UnknownAdded(t, Named(t, block, v), SourceOf(v.fields).descriptions, d);
    }
  }

  lemma {:induction false} UnknownDescriptions(t: Taxonomy, entries: seq<Value>, d: string)
    ensures d in MapEntries(t, entries).unmappedDescriptions <==> exists v :: v in entries && SaysUnknown(t, v, d)
  {
    if entries != [] {
      var k := |entries| - 1;
      UnknownDescriptions(t, entries[..k], d);
      FactsAddUnknown(t, MapEntries(t, entries[..k]), entries[k], d);
      assert entries == entries[..k] + [entries[k]];
    }
  }

  // ---- Nothing is lost ----

  /** Items come in source order, exactly one for each format whose name stands for a medium or a
      family, and the unmapped names are exactly those that the taxonomy does not know. */
  lemma FormatsAreAccounted(t: Taxonomy, formats: Option<Value>)
    ensures var b := MapFormats(t, formats);
            && b.items == ItemsOf(t, Entries(formats))
            && Increasing(b.unmappedFormats)
            && (forall name :: name in Elements(b.unmappedFormats) <==>
                exists v :: v in Entries(formats) && UnknownName(t, v) == [name])
            && (forall v :: v in Entries(formats) && v.Obj? && SourceOf(v.fields).name.Some? ==>
                  var name := SourceOf(v.fields).name.value;
                  (ItemOf(t, v).Some? <==>
                     name in t.formats && (t.formats[name].medium.Some? || t.formats[name].family.Some?)))
  {
    var before := MapEntries(t, Entries(formats));
    ItemsInOrder(t, Entries(formats));
    SortedHolds(Elements(before.unmappedFormats));
    forall name
      ensures name in Elements(before.unmappedFormats) <==>
                exists v :: v in Entries(formats) && UnknownName(t, v) == [name] {
      UnknownFormats(t, Entries(formats), name);
      MemberIsElement(before.unmappedFormats, name);
    }
  }

  /** Every description is ruled by the vocabulary or listed as unmapped, whether or not its
      format made an item, and nothing else is listed. */
  lemma DescriptionsAreAccounted(t: Taxonomy, formats: Option<Value>)
    ensures var b := MapFormats(t, formats);
            && Increasing(b.unmappedDescriptions)
            && forall d :: d in Elements(b.unmappedDescriptions) <==>
                exists v :: v in Entries(formats) && SaysUnknown(t, v, d)
  {
    var before := MapEntries(t, Entries(formats));
    SortedHolds(Elements(before.unmappedDescriptions));
    forall d ensures d in Elements(before.unmappedDescriptions) <==>
        exists v :: v in Entries(formats) && SaysUnknown(t, v, d) {
      UnknownDescriptions(t, Entries(formats), d);
      MemberIsElement(before.unmappedDescriptions, d);
    }
  }

  // ---- Finishing twice ----

  lemma SameItem(a: Item, b: Item)
    requires SameButAttributes(a, b) && forall attribute :: Get(a, attribute) == Get(b, attribute)
    ensures a == b
  {
    assert Get(a, "size_inches") == Get(b, "size_inches");
    assert Get(a, "speed_rpm") == Get(b, "speed_rpm");
    assert Get(a, "channels") == Get(b, "channels");
    assert Get(a, "codec") == Get(b, "codec");
  }

  /** A resolved item whose defaults are filled in needs neither again. */
  lemma SettledStays(t: Taxonomy, item: Item)
    requires Resolved(t, item) == item
    requires forall attribute :: Get(item, attribute) == None ==> DefaultOf(t, item.medium, attribute) == None
    ensures WithDefaults(t, Resolved(t, item)) == item
  {
    forall attribute ensures Get(WithDefaults(t, item), attribute) == Get(item, attribute) {
      WithDefaultsFills(t, item, attribute);
    }
    WithDefaultsFills(t, item, "codec");
    SameItem(WithDefaults(t, item), item);
  }

  lemma ResolvedOnce(t: Taxonomy, item: Item, filled: Item)
    requires filled.family == Resolved(t, item).family && filled.medium == Resolved(t, item).medium
    ensures Resolved(t, filled) == filled
  {
  }

  lemma SortedTwice(keys: set<string>)
    ensures Sorted(Elements(Sorted(keys))) == Sorted(keys)
  {
    SortedHolds(keys);
  }

  /** Finishing an item twice is finishing it once. */
  lemma FinishItemTwice(t: Taxonomy, item: Item)
    ensures FinishItem(t, FinishItem(t, item)) == FinishItem(t, item)
  {
    var once := FinishItem(t, item);
    forall attribute ensures Get(once, attribute) == None ==> DefaultOf(t, once.medium, attribute) == None {
      FinishKeeps(t, item, attribute);
    }
    FinishKeeps(t, item, "codec");
    ResolvedOnce(t, item, once);
    SettledStays(t, once);
    var filled := WithDefaults(t, Resolved(t, item));
    SortedTwice(Elements(filled.variants));
    SortedTwice(Elements(filled.appearance));
  }

  lemma FinishBlockTwice(block: Block)
    ensures FinishBlock(FinishBlock(block)) == FinishBlock(block)
  {
    SortedTwice(Elements(block.traits));
    SortedTwice(Elements(block.edition));
    SortedTwice(Elements(block.flags));
    SortedTwice(Elements(block.unmappedFormats));
    SortedTwice(Elements(block.unmappedDescriptions));
  }
}
