/** The canonical media block of a release: its formats, mapped by the media taxonomy. */
module Media {
  import opened Json
  import opened Sorting
  import opened Strings
  import opened Fields
  import opened Numbers

  const I64_LIMIT: int := 0x8000_0000_0000_0000

  // ---- The taxonomy ----

  /** How a family picks a medium by one of the item's attributes. */
  datatype Resolve = Resolve(attribute: string, media: map<string, string>)
  datatype Medium = Medium(family: string, defaults: map<string, Value>)
  datatype FormatEntry = FormatEntry(family: Option<string>, medium: Option<string>, variant: Option<string>,
                                     container: Option<string>, flag: Option<string>)
  datatype Rule = Rule(target: string, value: Value)
  datatype Taxonomy = Taxonomy(
    version: string,
    families: map<string, Option<Resolve>>,
    media: map<string, Medium>,
    formats: map<string, FormatEntry>,
    descriptions: map<string, Rule>)

  // ---- The block ----

  datatype Source = Source(name: Option<string>, descriptions: seq<string>, text: Option<string>)

  datatype Item = Item(
    family: Option<string>,
    medium: Option<string>,
    qty: nat,
    sizeInches: Option<int>,
    speedRpm: Option<int>,
    channels: Option<string>,
    codec: Option<string>,
    variants: seq<string>,
    appearance: seq<string>,
    source: Source)

  datatype Block = Block(
    version: string,
    items: seq<Item>,
    families: seq<string>,
    releaseKind: Option<string>,
    traits: seq<string>,
    edition: seq<string>,
    packaging: Option<string>,
    container: Option<string>,
    flags: seq<string>,
    unmappedFormats: seq<string>,
    unmappedDescriptions: seq<string>)

  function EmptyBlock(t: Taxonomy): Block {
    Block(t.version, [], [], None, [], [], None, None, [], [], [])
  }

  function NewItem(source: Source): Item {
    Item(None, None, 1, None, None, None, None, [], [], source)
  }

  // ---- Attributes ----

  predicate IsAttribute(name: string) {
    name == "size_inches" || name == "speed_rpm" || name == "channels" || name == "codec"
  }

  function AsNumber(v: Value): Option<int> {
    if v.Num? then Some(v.number) else None
  }

  function AsText(v: Value): Option<string> {
    if v.Str? then Some(v.text) else None
  }

  function Fill<T>(slot: Option<T>, value: Option<T>): Option<T> {
    if slot.None? then value else slot
  }

  function FillAttribute(item: Item, attribute: string, value: Value): Item {
    if attribute == "size_inches" then item.(sizeInches := Fill(item.sizeInches, AsNumber(value)))
    else if attribute == "speed_rpm" then item.(speedRpm := Fill(item.speedRpm, AsNumber(value)))
    else if attribute == "channels" then item.(channels := Fill(item.channels, AsText(value)))
    else if attribute == "codec" then item.(codec := Fill(item.codec, AsText(value)))
    else item
  }

  function NumberText(n: Option<int>): Option<string> {
    if n.Some? then Some(Decimal(n.value)) else None
  }

  /** The attribute as a family resolves a medium by it. */
  function AttributeKey(item: Item, attribute: string): Option<string> {
    if attribute == "size_inches" then NumberText(item.sizeInches)
    else if attribute == "speed_rpm" then NumberText(item.speedRpm)
    else if attribute == "channels" then item.channels
    else if attribute == "codec" then item.codec
    else None
  }

  // ---- Reading a format ----

  /** The text of a field, as received. */
  function TextField(format: map<string, Value>, key: string): Option<string> {
    if key in format then AsText(format[key]) else None
  }

  function Texts(items: seq<Value>): seq<string> {
    if items == [] then []
    else
      var k := |items| - 1;
      Texts(items[..k]) + (if items[k].Str? then [items[k].text] else [])
  }

  /** A list, a single text, or either one wrapped under `description`. */
  function FlattenDescriptions(value: Value): seq<string>
    decreases value
  {
    match value
    case Arr(items) => Texts(items)
    case Str(text) => [text]
    case Obj(fields) => if "description" in fields then FlattenDescriptions(fields["description"]) else []
    case _ => []
  }

  /** The leading integer of a text, if it fits into 64 bits. */
  function ParseLeadingInteger(text: string): Option<int> {
    var trimmed := TrimStart(text);
    var negative := trimmed != [] && trimmed[0] == '-';
    var rest := if negative || (trimmed != [] && trimmed[0] == '+') then trimmed[1..] else trimmed;
    var digits := LeadingDigits(rest);
    var magnitude: int := Number(digits);
    if digits == [] || magnitude >= I64_LIMIT then None
    else if negative then Some(-magnitude) else Some(magnitude)
  }

  /** Anything that is no whole number of at least one counts as one. */
  function ParseQty(value: Option<Value>): (qty: nat)
    ensures 1 <= qty < I64_LIMIT
  {
    var parsed :=
      if value.None? then None
      else
        match value.value
        case Str(text) => ParseLeadingInteger(text)
        case Num(n) => ParseLeadingInteger(Decimal(n))
        case _ => None;
    if parsed.Some? && 1 <= parsed.value < I64_LIMIT then parsed.value else 1
  }

  // ---- Finishing ----

  function FillDefaults(item: Item, defaults: map<string, Value>, keys: seq<string>): Item {
    if keys == [] then item
    else
      var k := |keys| - 1;
      var before := FillDefaults(item, defaults, keys[..k]);
      if keys[k] in defaults then FillAttribute(before, keys[k], defaults[keys[k]]) else before
  }

  function ResolvedFamily(t: Taxonomy, item: Item): Option<string> {
    if item.family.None? && item.medium.Some? && item.medium.value in t.media
      then Some(t.media[item.medium.value].family)
    else item.family
  }

  function ResolvedMedium(t: Taxonomy, item: Item): Option<string> {
    if item.medium.Some? || item.family.None? then item.medium
    else
      var family := item.family.value;
      var resolve := if family in t.families then t.families[family] else None;
      var key := if resolve.Some? then AttributeKey(item, resolve.value.attribute) else None;
      if key.Some? && key.value in resolve.value.media then Some(resolve.value.media[key.value])
      else Some(family + "_unspecified")
  }

  function Resolved(t: Taxonomy, item: Item): Item {
    var withFamily := item.(family := ResolvedFamily(t, item));
    withFamily.(medium := ResolvedMedium(t, withFamily))
  }

  function WithDefaults(t: Taxonomy, item: Item): Item {
    if item.medium.Some? && item.medium.value in t.media then
      var defaults := t.media[item.medium.value].defaults;
      FillDefaults(item, defaults, Sorted(defaults.Keys))
    else item
  }

  function FinishItem(t: Taxonomy, item: Item): Item {
    var filled := WithDefaults(t, Resolved(t, item));
    filled.(variants := Sorted(Elements(filled.variants)), appearance := Sorted(Elements(filled.appearance)))
  }

  function Families(items: seq<Item>): seq<string> {
    if items == [] then []
    else
      var k := |items| - 1;
      Families(items[..k]) + (if items[k].family.Some? then [items[k].family.value] else [])
  }

  function FinishBlock(block: Block): Block {
    block.(families := Sorted(Elements(Families(block.items))),
           traits := Sorted(Elements(block.traits)),
           edition := Sorted(Elements(block.edition)),
           flags := Sorted(Elements(block.flags)),
           unmappedFormats := Sorted(Elements(block.unmappedFormats)),
           unmappedDescriptions := Sorted(Elements(block.unmappedDescriptions)))
  }

  // ---- One format: what it says about its item, and about the release ----

  /** A format entry that names a medium or a family makes an item; one that does not is a
      container or a flag. */
  predicate MakesItem(entry: FormatEntry) {
    entry.family.Some? || entry.medium.Some?
  }

  function EntryItem(entry: FormatEntry, item: Item): Item {
    item.(medium := if entry.medium.Some? then entry.medium else item.medium,
          family := if entry.family.Some? then entry.family else item.family,
          variants := if entry.variant.Some? then item.variants + [entry.variant.value] else item.variants)
  }

  function EntryBlock(entry: FormatEntry, block: Block): Block {
    block.(container := if entry.container.Some? then entry.container else block.container,
           flags := if entry.flag.Some? then block.flags + [entry.flag.value] else block.flags)
  }

  function DescribeItem(item: Item, rule: Rule): Item {
    if IsAttribute(rule.target) then FillAttribute(item, rule.target, rule.value)
    else if !rule.value.Str? then item
    else if rule.target == "variant" then item.(variants := item.variants + [rule.value.text])
    else if rule.target == "appearance" then item.(appearance := item.appearance + [rule.value.text])
    else item
  }

  function DescribeBlock(block: Block, rule: Rule): Block {
    if !rule.value.Str? then block
    else
      var value := rule.value.text;
      if rule.target == "trait" then block.(traits := block.traits + [value])
      else if rule.target == "edition" then block.(edition := block.edition + [value])
      else if rule.target == "flag" then block.(flags := block.flags + [value])
      else if rule.target == "release_kind" then block.(releaseKind := Fill(block.releaseKind, Some(value)))
      else if rule.target == "packaging" then block.(packaging := Fill(block.packaging, Some(value)))
      else if rule.target == "container" then block.(container := Fill(block.container, Some(value)))
      else block
  }

  function DescribeItemAll(t: Taxonomy, item: Item, descriptions: seq<string>): Item {
    if descriptions == [] then item
    else
      var k := |descriptions| - 1;
      var before := DescribeItemAll(t, item, descriptions[..k]);
      if descriptions[k] in t.descriptions then DescribeItem(before, t.descriptions[descriptions[k]]) else before
  }

  function DescribeBlockAll(t: Taxonomy, block: Block, descriptions: seq<string>): Block {
    if descriptions == [] then block
    else
      var k := |descriptions| - 1;
      var before := DescribeBlockAll(t, block, descriptions[..k]);
      if descriptions[k] in t.descriptions then DescribeBlock(before, t.descriptions[descriptions[k]])
      else before.(unmappedDescriptions := before.unmappedDescriptions + [descriptions[k]])
  }

  function SourceOf(format: map<string, Value>): Source {
    Source(TextField(format, "name"),
           if "descriptions" in format then FlattenDescriptions(format["descriptions"]) else [],
           TextField(format, "text"))
  }

  function QtyOf(format: map<string, Value>): nat {
    ParseQty(if "qty" in format then Some(format["qty"]) else None)
  }

  /** The item a list entry makes, on its own: none for a name the taxonomy does not know, for a
      container or a flag, and for anything that is no object. */
  function ItemOf(t: Taxonomy, v: Value): Option<Item> {
    if !v.Obj? then None
    else
      var source := SourceOf(v.fields);
      if source.name.None? || source.name.value !in t.formats || !MakesItem(t.formats[source.name.value]) then None
      else
        var made := EntryItem(t.formats[source.name.value], NewItem(source)).(qty := QtyOf(v.fields));
        Some(FinishItem(t, DescribeItemAll(t, made, source.descriptions)))
  }

  /** What the name of a format adds to the block. */
  function Named(t: Taxonomy, block: Block, v: Value): Block
    requires v.Obj?
  {
    var name := SourceOf(v.fields).name;
    if name.None? then block
    else if name.value !in t.formats then block.(unmappedFormats := block.unmappedFormats + [name.value])
    else EntryBlock(t.formats[name.value], block)
  }

  /** What an entry adds to the block beside its item. */
  function FactsOf(t: Taxonomy, block: Block, v: Value): Block {
    if !v.Obj? then block
    else
      DescribeBlockAll(t, Named(t, block, v), SourceOf(v.fields).descriptions)
  }

  function MapFormat(t: Taxonomy, block: Block, v: Value): Block {
    var facts := FactsOf(t, block, v);
    var item := ItemOf(t, v);
    if item.Some? then facts.(items := facts.items + [item.value]) else facts
  }

  function MapEntries(t: Taxonomy, entries: seq<Value>): Block {
    if entries == [] then EmptyBlock(t)
    else MapFormat(t, MapEntries(t, entries[..|entries| - 1]), entries[|entries| - 1])
  }

  function MapFormats(t: Taxonomy, formats: Option<Value>): Block {
    FinishBlock(MapEntries(t, Entries(formats)))
  }

  // ---- The mapper's loops ----

  /** One description goes to the item, to the release, or nowhere. */
  method ApplyDescription(block: Block, item: Option<Item>, rule: Rule) returns (block': Block, item': Option<Item>)
    ensures block' == DescribeBlock(block, rule)
    ensures item' == if item.Some? then Some(DescribeItem(item.value, rule)) else None
  {
    block', item' := block, item;
    if rule.target == "ignore" {
      return;
    }
    if IsAttribute(rule.target) {
      if item.Some? {
        item' := Some(FillAttribute(item.value, rule.target, rule.value));
      }
      return;
    }
    if !rule.value.Str? {
      return;
    }
    var value := rule.value.text;
    if rule.target == "variant" {
      if item.Some? {
        item' := Some(item.value.(variants := item.value.variants + [value]));
      }
    } else if rule.target == "appearance" {
      if item.Some? {
        item' := Some(item.value.(appearance := item.value.appearance + [value]));
      }
    } else if rule.target == "trait" {
      block' := block.(traits := block.traits + [value]);
    } else if rule.target == "edition" {
      block' := block.(edition := block.edition + [value]);
    } else if rule.target == "flag" {
      block' := block.(flags := block.flags + [value]);
    } else if rule.target == "release_kind" {
      block' := block.(releaseKind := Fill(block.releaseKind, Some(value)));
    } else if rule.target == "packaging" {
      block' := block.(packaging := Fill(block.packaging, Some(value)));
    } else if rule.target == "container" {
      block' := block.(container := Fill(block.container, Some(value)));
    }
  }

  method ApplyFormatEntry(block: Block, entry: FormatEntry, item: Item) returns (block': Block, item': Option<Item>)
    ensures block' == EntryBlock(entry, block)
    ensures item' == if MakesItem(entry) then Some(EntryItem(entry, item)) else None
  {
    block' := block;
    if entry.container.Some? {
      block' := block'.(container := entry.container);
    }
    if entry.flag.Some? {
      block' := block'.(flags := block'.flags + [entry.flag.value]);
    }
    if entry.family.None? && entry.medium.None? {
      return block', None;
    }
    var made := item;
    if entry.medium.Some? {
      made := made.(medium := entry.medium);
    }
    if entry.family.Some? {
      made := made.(family := entry.family);
    }
    if entry.variant.Some? {
      made := made.(variants := made.variants + [entry.variant.value]);
    }
    item' := Some(made);
  }

  method ApplyDescriptions(t: Taxonomy, block: Block, item: Option<Item>, descriptions: seq<string>)
      returns (block': Block, item': Option<Item>)
    ensures block' == DescribeBlockAll(t, block, descriptions)
    ensures item' == if item.Some? then Some(DescribeItemAll(t, item.value, descriptions)) else None
  {
    block', item' := block, item;
    for i := 0 to |descriptions|
      invariant block' == DescribeBlockAll(t, block, descriptions[..i])
      invariant item' == if item.Some? then Some(DescribeItemAll(t, item.value, descriptions[..i])) else None
    {
      assert descriptions[..i + 1][..i] == descriptions[..i];
      if descriptions[i] in t.descriptions {
        block', item' := ApplyDescription(block', item', t.descriptions[descriptions[i]]);
      } else {
        block' := block'.(unmappedDescriptions := block'.unmappedDescriptions + [descriptions[i]]);
      }
    }
    assert descriptions[..|descriptions|] == descriptions;
  }

  lemma NextEntry(t: Taxonomy, entries: seq<Value>, i: nat)
    requires i < |entries|
    ensures MapEntries(t, entries[..i + 1]) == MapFormat(t, MapEntries(t, entries[..i]), entries[i])
  {
    assert entries[..i + 1][..i] == entries[..i];
  }

  method MapDiscogsFormats(t: Taxonomy, formats: Option<Value>) returns (block: Block)
    ensures block == MapFormats(t, formats)
  {
    block := EmptyBlock(t);
    var entries := Entries(formats);
    for i := 0 to |entries|
      invariant block == MapEntries(t, entries[..i])
    {
      NextEntry(t, entries, i);
      if !entries[i].Obj? {
        continue;
      }
      var format := entries[i].fields;
      var source := SourceOf(format);
      var item: Option<Item> := None;
      if source.name.Some? {
        if source.name.value !in t.formats {
          block := block.(unmappedFormats := block.unmappedFormats + [source.name.value]);
        } else {
          block, item := ApplyFormatEntry(block, t.formats[source.name.value], NewItem(source));
          if item.Some? {
            item := Some(item.value.(qty := QtyOf(format)));
          }
        }
      }
      block, item := ApplyDescriptions(t, block, item, source.descriptions);
      if item.Some? {
        block := block.(items := block.items + [FinishItem(t, item.value)]);
      }
    }
    assert entries[..|entries|] == entries;
    block := FinishBlock(block);
  }
}
