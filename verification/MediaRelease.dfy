/** What the formats of a list say about the release: where each format, each description and each
    of its values ends up. */
module MediaRelease {
  import opened Json
  import opened Sorting
  import opened Strings
  import opened Fields
  import opened Media
  import opened MediaFacts

  // ---- One description ----

  predicate IsText(rule: Rule, target: string) {
    rule.target == target && rule.value.Str?
  }

  /** The description says nothing that its item or its release does not know already: its target
      is none, its value is of another kind than its target, or the one place it has is taken. */
  predicate IsIdle(block: Block, item: Item, rule: Rule) {
    if IsAttribute(rule.target) then MediaFacts.Usable(rule.target, rule.value) == None || Get(item, rule.target).Some?
    else if IsText(rule, "release_kind") then block.releaseKind.Some?
    else if IsText(rule, "packaging") then block.packaging.Some?
    else if IsText(rule, "container") then block.container.Some?
    else
      !IsText(rule, "variant") && !IsText(rule, "appearance") && !IsText(rule, "trait") && !IsText(rule, "edition")
      && !IsText(rule, "flag")
  }

  predicate Stays(before: Option<string>, after: Option<string>) {
    before.Some? ==> after == before
  }

  /** Nothing that was stated of the release is lost or changed. */
  predicate Extends(before: Block, after: Block) {
    && before.traits <= after.traits && before.edition <= after.edition && before.flags <= after.flags
    && Stays(before.releaseKind, after.releaseKind) && Stays(before.packaging, after.packaging)
    && Stays(before.container, after.container) && after.items == before.items
    && after.unmappedFormats == before.unmappedFormats && after.unmappedDescriptions == before.unmappedDescriptions
  }

  /** Nothing that was stated of the item is. */
  ghost predicate ItemExtends(before: Item, after: Item) {
    && before.variants <= after.variants && before.appearance <= after.appearance
    && (forall attribute :: Get(before, attribute).Some? ==> Get(after, attribute) == Get(before, attribute))
    && after.family == before.family && after.medium == before.medium && after.qty == before.qty
      && after.source == before.source
  }

  /** A description goes to one place: it never changes both its item and its release, loses
      nothing that was said before, and changes neither exactly when it has nothing new to say. */
  lemma DescriptionHasOneTarget(block: Block, item: Item, rule: Rule)
    ensures DescribeBlock(block, rule) == block || DescribeItem(item, rule) == item
    ensures Extends(block, DescribeBlock(block, rule)) && ItemExtends(item, DescribeItem(item, rule))
    ensures DescribeBlock(block, rule) == block && DescribeItem(item, rule) == item <==> IsIdle(block, item, rule)
  {
    var described := DescribeItem(item, rule);
    forall attribute | Get(item, attribute).Some? ensures Get(described, attribute) == Get(item, attribute) {
      DescribeSets(item, rule, attribute);
    }
    ItemChanges(item, rule);
  }

  lemma ItemChanges(item: Item, rule: Rule)
    ensures DescribeItem(item, rule) == item <==>
            !IsText(rule, "variant") && !IsText(rule, "appearance")
            && (IsAttribute(rule.target) ==>
                MediaFacts.Usable(rule.target, rule.value) == None || Get(item, rule.target).Some?)
  {
    DescribeSets(item, rule, rule.target);
    if IsText(rule, "variant") {
      assert |DescribeItem(item, rule).variants| == |item.variants| + 1;
    }
    if IsText(rule, "appearance") {
      assert |DescribeItem(item, rule).appearance| == |item.appearance| + 1;
    }
  }

  // ---- What is said about the release, in order ----

  /** What one description says to a target of the release. */
  function StatedBy(t: Taxonomy, description: string, target: string): seq<string> {
    if description in t.descriptions && IsText(t.descriptions[description], target)
    then [t.descriptions[description].value.text] else []
  }

  function Stated(t: Taxonomy, descriptions: seq<string>, target: string): seq<string> {
    if descriptions == [] then []
    else
      var k := |descriptions| - 1;
      Stated(t, descriptions[..k], target) + StatedBy(t, descriptions[k], target)
  }

  function StatedIn(t: Taxonomy, v: Value, target: string): seq<string> {
    if v.Obj? then Stated(t, SourceOf(v.fields).descriptions, target) else []
  }

  /** All that the descriptions of a list say to a target, in document order. */
  function AllStated(t: Taxonomy, entries: seq<Value>, target: string): seq<string> {
    if entries == [] then []
    else
      var k := |entries| - 1;
      AllStated(t, entries[..k], target) + StatedIn(t, entries[k], target)
  }

  /** The taxonomy's entry for the name of a format. */
  function EntryOf(t: Taxonomy, v: Value): Option<FormatEntry> {
    if !v.Obj? then None
    else
      var name := SourceOf(v.fields).name;
      if name.Some? && name.value in t.formats then Some(t.formats[name.value]) else None
  }

  function NamedContainer(t: Taxonomy, v: Value): Option<string> {
    if EntryOf(t, v).Some? then EntryOf(t, v).value.container else None
  }

  function NamedFlag(t: Taxonomy, v: Value): Option<string> {
    if EntryOf(t, v).Some? then EntryOf(t, v).value.flag else None
  }

  function AsList(text: Option<string>): seq<string> {
    if text.Some? then [text.value] else []
  }

  function AllFlags(t: Taxonomy, entries: seq<Value>): seq<string> {
    if entries == [] then []
    else
      var k := |entries| - 1;
      AllFlags(t, entries[..k]) + AsList(NamedFlag(t, entries[k])) + StatedIn(t, entries[k], "flag")
  }

  function First(list: seq<string>): Option<string> {
    if list == [] then None else Some(list[0])
  }

  function LastNamed(t: Taxonomy, entries: seq<Value>): Option<string> {
    if entries == [] then None
    else
      var k := |entries| - 1;
      if NamedContainer(t, entries[k]).Some? then NamedContainer(t, entries[k]) else LastNamed(t, entries[..k])
  }

  lemma FillFirst(slot: Option<string>, a: seq<string>, b: seq<string>)
    ensures Fill(slot, First(a + b)) == Fill(Fill(slot, First(a)), First(b))
  {
  }

  /** What one description adds: to its list, or where nothing has been stated yet. */
  lemma DescriptionAdds(t: Taxonomy, block: Block, d: string)
    requires d in t.descriptions
    ensures var b := DescribeBlock(block, t.descriptions[d]);
            && b.traits == block.traits + StatedBy(t, d, "trait")
            && b.edition == block.edition + StatedBy(t, d, "edition")
            && b.flags == block.flags + StatedBy(t, d, "flag")
            && b.releaseKind == Fill(block.releaseKind, First(StatedBy(t, d, "release_kind")))
            && b.packaging == Fill(block.packaging, First(StatedBy(t, d, "packaging")))
            && b.container == Fill(block.container, First(StatedBy(t, d, "container")))
  {
  }

  lemma {:induction false} ListsAdd(t: Taxonomy, block: Block, ds: seq<string>)
    ensures var b := DescribeBlockAll(t, block, ds);
            && b.traits == block.traits + Stated(t, ds, "trait")
            && b.edition == block.edition + Stated(t, ds, "edition")
            && b.flags == block.flags + Stated(t, ds, "flag")
  {
    if ds != [] {
      var k := |ds| - 1;
      ListsAdd(t, block, ds[..k]);
      if ds[k] in t.descriptions {
        DescriptionAdds(t, DescribeBlockAll(t, block, ds[..k]), ds[k]);
      }
    }
  }

  lemma {:induction false} ScalarsFill(t: Taxonomy, block: Block, ds: seq<string>)
    ensures var b := DescribeBlockAll(t, block, ds);
            && b.releaseKind == Fill(block.releaseKind, First(Stated(t, ds, "release_kind")))
            && b.packaging == Fill(block.packaging, First(Stated(t, ds, "packaging")))
            && b.container == Fill(block.container, First(Stated(t, ds, "container")))
  {
    if ds != [] {
      var k := |ds| - 1;
      ScalarsFill(t, block, ds[..k]);
      if ds[k] in t.descriptions {
        DescriptionAdds(t, DescribeBlockAll(t, block, ds[..k]), ds[k]);
      }
      FillFirst(block.releaseKind, Stated(t, ds[..k], "release_kind"), StatedBy(t, ds[k], "release_kind"));
      FillFirst(block.packaging, Stated(t, ds[..k], "packaging"), StatedBy(t, ds[k], "packaging"));
      FillFirst(block.container, Stated(t, ds[..k], "container"), StatedBy(t, ds[k], "container"));
    }
  }

  /** What a format adds; the container it names takes the place of another. */
  lemma FormatAdds(t: Taxonomy, block: Block, v: Value)
    ensures var b := MapFormat(t, block, v);
            && b.traits == block.traits + StatedIn(t, v, "trait")
            && b.edition == block.edition + StatedIn(t, v, "edition")
            && b.flags == block.flags + AsList(NamedFlag(t, v)) + StatedIn(t, v, "flag")
            && b.releaseKind == Fill(block.releaseKind, First(StatedIn(t, v, "release_kind")))
            && b.packaging == Fill(block.packaging, First(StatedIn(t, v, "packaging")))
            && b.container == if NamedContainer(t, v).Some? then NamedContainer(t, v)
                              else Fill(block.container, First(StatedIn(t, v, "container")))
  {
    if v.Obj? {
      NameAdds(t, block, v);
      ListsAdd(t, Named(t, block, v), SourceOf(v.fields).descriptions);
      ScalarsFill(t, Named(t, block, v), SourceOf(v.fields).descriptions);
    }
  }

  lemma NameAdds(t: Taxonomy, block: Block, v: Value)
    requires v.Obj?
    ensures var b := Named(t, block, v);
            && b.traits == block.traits && b.edition == block.edition
            && b.releaseKind == block.releaseKind && b.packaging == block.packaging
            && b.flags == block.flags + AsList(NamedFlag(t, v))
            && b.container == if NamedContainer(t, v).Some? then NamedContainer(t, v) else block.container
  {
  }

  /** What is said about the release, over a whole list. */
  lemma {:induction false} EntriesAdd(t: Taxonomy, entries: seq<Value>)
    ensures var b := MapEntries(t, entries);
            && b.traits == AllStated(t, entries, "trait")
            && b.edition == AllStated(t, entries, "edition")
            && b.flags == AllFlags(t, entries)
            && b.releaseKind == First(AllStated(t, entries, "release_kind"))
            && b.packaging == First(AllStated(t, entries, "packaging"))
            && b.container == if LastNamed(t, entries).Some? then LastNamed(t, entries)
                              else First(AllStated(t, entries, "container"))
  {
    if entries != [] {
      var k := |entries| - 1;
      EntriesAdd(t, entries[..k]);
      FormatAdds(t, MapEntries(t, entries[..k]), entries[k]);
      FillFirst(None, AllStated(t, entries[..k], "release_kind"), StatedIn(t, entries[k], "release_kind"));
      FillFirst(None, AllStated(t, entries[..k], "packaging"), StatedIn(t, entries[k], "packaging"));
      FillFirst(None, AllStated(t, entries[..k], "container"), StatedIn(t, entries[k], "container"));
    }
  }

  // ---- Who said it ----

  /** Some description of the format has a rule with this target and this value. */
  ghost predicate Says(t: Taxonomy, v: Value, target: string, value: string) {
    && v.Obj?
    && exists d ::
         d in SourceOf(v.fields).descriptions && d in t.descriptions && t.descriptions[d] == Rule(target, Str(value))
  }

  lemma {:induction false} StatedIff(t: Taxonomy, ds: seq<string>, target: string, value: string)
    ensures value in Stated(t, ds, target) <==>
            exists d :: d in ds && d in t.descriptions && t.descriptions[d] == Rule(target, Str(value))
  {
    if ds != [] {
      var k := |ds| - 1;
      StatedIff(t, ds[..k], target, value);
      assert ds == ds[..k] + [ds[k]];
      assert value in StatedBy(t, ds[k], target) <==>
        ds[k] in t.descriptions && t.descriptions[ds[k]] == Rule(target, Str(value));
    }
  }

  lemma SaysIff(t: Taxonomy, v: Value, target: string, value: string)
    ensures value in StatedIn(t, v, target) <==> Says(t, v, target, value)
  {
    if v.Obj? {
      StatedIff(t, SourceOf(v.fields).descriptions, target, value);
    }
  }

  lemma {:induction false} AllStatedIff(t: Taxonomy, entries: seq<Value>, target: string, value: string)
    ensures value in AllStated(t, entries, target) <==> exists v :: v in entries && Says(t, v, target, value)
  {
    if entries != [] {
      var k := |entries| - 1;
      AllStatedIff(t, entries[..k], target, value);
      assert entries == entries[..k] + [entries[k]];
      SaysIff(t, entries[k], target, value);
    }
  }

  lemma {:induction false} AllFlagsIff(t: Taxonomy, entries: seq<Value>, flag: string)
    ensures flag in AllFlags(t, entries) <==>
            exists v :: v in entries && (NamedFlag(t, v) == Some(flag) || Says(t, v, "flag", flag))
  {
    if entries != [] {
      var k := |entries| - 1;
      AllFlagsIff(t, entries[..k], flag);
      assert entries == entries[..k] + [entries[k]];
      assert flag in AsList(NamedFlag(t, entries[k])) <==> NamedFlag(t, entries[k]) == Some(flag);
      SaysIff(t, entries[k], "flag", flag);
    }
  }

  lemma ListHolds(list: seq<string>, value: string)
    ensures value in Sorted(Elements(list)) <==> value in list
  {
    SortedHolds(Elements(list));
    MemberIsElement(list, value);
    MemberIsElement(Sorted(Elements(list)), value);
  }

  /** The release's traits, editions and flags are exactly those for which some description of some
      format has a rule, and the flags that the names of formats stand for. */
  lemma ListedIffStated(t: Taxonomy, formats: Option<Value>, value: string)
    ensures var b := MapFormats(t, formats); var entries := Entries(formats);
            && (value in b.traits <==> exists v :: v in entries && Says(t, v, "trait", value))
            && (value in b.edition <==> exists v :: v in entries && Says(t, v, "edition", value))
            && (value in b.flags <==>
                  exists v :: v in entries && (NamedFlag(t, v) == Some(value) || Says(t, v, "flag", value)))
  {
    var entries := Entries(formats);
    EntriesAdd(t, entries);
    ListHolds(AllStated(t, entries, "trait"), value);
    ListHolds(AllStated(t, entries, "edition"), value);
    ListHolds(AllFlags(t, entries), value);
    AllStatedIff(t, entries, "trait", value);
    AllStatedIff(t, entries, "edition", value);
    AllFlagsIff(t, entries, value);
  }

  // ---- The container ----

  /** Of the formats that name a container, this is the last. */
  ghost predicate IsLastNamed(t: Taxonomy, entries: seq<Value>, k: int) {
    && 0 <= k < |entries| && NamedContainer(t, entries[k]).Some?
    && forall j :: k < j < |entries| ==> NamedContainer(t, entries[j]) == None
  }

  lemma {:induction false} LastNamedAt(t: Taxonomy, entries: seq<Value>, k: int)
    requires IsLastNamed(t, entries, k)
    ensures LastNamed(t, entries) == NamedContainer(t, entries[k])
  {
    if k < |entries| - 1 {
      var front := entries[..|entries| - 1];
      assert NamedContainer(t, entries[|entries| - 1]) == None;
      assert IsLastNamed(t, front, k);
      LastNamedAt(t, front, k);
    }
  }

  lemma {:induction false} NoneNamed(t: Taxonomy, entries: seq<Value>)
    requires forall v :: v in entries ==> NamedContainer(t, v) == None
    ensures LastNamed(t, entries) == None
  {
    if entries != [] {
      NoneNamed(t, entries[..|entries| - 1]);
    }
  }

  /** The scalar facts: kind and packaging are the first stated; the container is the one that the
      last format with a container in its name stands for, and else the first described. */
  lemma ScalarFacts(t: Taxonomy, formats: Option<Value>)
    ensures var b := MapFormats(t, formats); var entries := Entries(formats);
            && b.releaseKind == First(AllStated(t, entries, "release_kind"))
            && b.packaging == First(AllStated(t, entries, "packaging"))
            && (forall k :: IsLastNamed(t, entries, k) ==> b.container == NamedContainer(t, entries[k]))
            && ((forall v :: v in entries ==> NamedContainer(t, v) == None) ==>
                  b.container == First(AllStated(t, entries, "container")))
  {
    var entries := Entries(formats);
    EntriesAdd(t, entries);
    forall k | IsLastNamed(t, entries, k)
      ensures MapFormats(t, formats).container == NamedContainer(t, entries[k])
    {
      LastNamedAt(t, entries, k);
    }
    if forall v :: v in entries ==> NamedContainer(t, v) == None {
      NoneNamed(t, entries);
    }
  }

  lemma {:induction false} SomeLast(t: Taxonomy, entries: seq<Value>, k: nat) returns (last: nat)
    requires k < |entries| && NamedContainer(t, entries[k]).Some?
    ensures k <= last && IsLastNamed(t, entries, last)
    decreases |entries| - k
  {
    if later :| k < later < |entries| && NamedContainer(t, entries[later]).Some? {
      last := SomeLast(t, entries, later);
    } else {
      last := k;
    }
  }

  /** The container that a format names is the release's unless a later format names another: of
      two sets of different kinds only the last is kept. */
  lemma ContainerSurvivesIff(t: Taxonomy, formats: Option<Value>, k: nat)
    requires k < |Entries(formats)| && NamedContainer(t, Entries(formats)[k]).Some?
    ensures var entries := Entries(formats);
            MapFormats(t, formats).container == NamedContainer(t, entries[k]) <==>
            forall j :: k < j && IsLastNamed(t, entries, j) ==>
                NamedContainer(t, entries[j]) == NamedContainer(t, entries[k])
  {
    ScalarFacts(t, formats);
    var last := SomeLast(t, Entries(formats), k);
  }

  // ---- What becomes of a format ----

  predicate IsNamed(v: Value) {
    v.Obj? && SourceOf(v.fields).name.Some?
  }

  predicate IsUnknown(t: Taxonomy, v: Value) {
    IsNamed(v) && EntryOf(t, v) == None
  }

  /** The name is known for a container or a flag alone. */
  predicate IsFactOnly(t: Taxonomy, v: Value) {
    EntryOf(t, v).Some? && !MakesItem(EntryOf(t, v).value) && (NamedContainer(t, v).Some? || NamedFlag(t, v).Some?)
  }

  /** The name is known, but its entry has no family, medium, container or flag. */
  predicate IsSilent(t: Taxonomy, v: Value) {
    EntryOf(t, v).Some? && !MakesItem(EntryOf(t, v).value) && NamedContainer(t, v) == None && NamedFlag(t, v) == None
  }

  predicate ExactlyOne(a: bool, b: bool, c: bool) {
    (a || b || c) && !(a && b) && !(a && c) && !(b && c)
  }

  lemma {:induction false} ItemsAt(t: Taxonomy, entries: seq<Value>, k: nat)
    requires k < |entries|
    ensures ItemsOf(t, entries[..k + 1]) <= ItemsOf(t, entries)
  {
    if k < |entries| - 1 {
      var front := entries[..|entries| - 1];
      ItemsAt(t, front, k);
      assert front[..k + 1] == entries[..k + 1];
    } else {
      assert entries[..k + 1] == entries;
    }
  }

  lemma ItemAt(t: Taxonomy, entries: seq<Value>, k: nat)
    requires k < |entries| && ItemOf(t, entries[k]).Some?
    ensures var place := |ItemsOf(t, entries[..k])|;
            place < |ItemsOf(t, entries)| && ItemsOf(t, entries)[place] == ItemOf(t, entries[k]).value
  {
    ItemsAt(t, entries, k);
    assert entries[..k + 1][..k] == entries[..k];
  }

  /** Of every named format exactly one thing becomes, unless its entry is silent: an item, in its
      place; a fact of the release alone; or a name listed as unmapped. */
  lemma FormatHasOneFate(t: Taxonomy, formats: Option<Value>, k: nat)
    requires k < |Entries(formats)| && IsNamed(Entries(formats)[k])
    ensures var entries := Entries(formats); var v := entries[k]; var b := MapFormats(t, formats);
            && (ExactlyOne(ItemOf(t, v).Some?, IsFactOnly(t, v), IsUnknown(t, v)) <==> !IsSilent(t, v))
            && (ItemOf(t, v).Some? ==>
                  var place := |ItemsOf(t, entries[..k])|; place < |b.items| && b.items[place] == ItemOf(t, v).value)
            && (NamedFlag(t, v).Some? ==> NamedFlag(t, v).value in b.flags)
            && (NamedContainer(t, v).Some? ==> b.container.Some?)
            && (SourceOf(v.fields).name.value in b.unmappedFormats <==> IsUnknown(t, v))
  {
    var entries := Entries(formats);
    var v := entries[k];
    var name := SourceOf(v.fields).name.value;
    FormatsAreAccounted(t, formats);
    if ItemOf(t, v).Some? {
      ItemAt(t, entries, k);
    }
    FactsAreKept(t, formats, k);
    MemberIsElement(MapFormats(t, formats).unmappedFormats, name);
    assert IsUnknown(t, v) <==> UnknownName(t, v) == [name];
  }

  lemma FactsAreKept(t: Taxonomy, formats: Option<Value>, k: nat)
    requires k < |Entries(formats)|
    ensures var v := Entries(formats)[k]; var b := MapFormats(t, formats);
            && (NamedFlag(t, v).Some? ==> NamedFlag(t, v).value in b.flags)
            && (NamedContainer(t, v).Some? ==> b.container.Some?)
  {
    var v := Entries(formats)[k];
    if NamedFlag(t, v).Some? {
      ListedIffStated(t, formats, NamedFlag(t, v).value);
    }
    if NamedContainer(t, v).Some? {
      ScalarFacts(t, formats);
      var last := SomeLast(t, Entries(formats), k);
    }
  }

  /** The name of a format makes no difference, whatever came before, exactly when its entry is
      silent. */
  lemma NameIsIgnoredIff(t: Taxonomy, v: Value)
    requires IsNamed(v)
    ensures (forall block :: MapFormat(t, block, v) == DescribeBlockAll(t, block, SourceOf(v.fields).descriptions)) <==>
            IsSilent(t, v)
  {
    if !IsSilent(t, v) {
      var other := if NamedContainer(t, v) == Some("") then Some("other") else Some("");
      var block := EmptyBlock(t).(container := other);
      NameTells(t, block, v);
    }
  }

  lemma NameTells(t: Taxonomy, block: Block, v: Value)
    requires IsNamed(v) && !IsSilent(t, v) && block.container.Some? && NamedContainer(t, v) != block.container
    ensures MapFormat(t, block, v) != DescribeBlockAll(t, block, SourceOf(v.fields).descriptions)
  {
    var ds := SourceOf(v.fields).descriptions;
    FormatAdds(t, block, v);
    ListsAdd(t, block, ds);
    ScalarsFill(t, block, ds);
    FactsKeepItems(t, block, v);
    DescriptionsKeepItems(t, block, ds);
    var without := DescribeBlockAll(t, block, ds);
    if NamedFlag(t, v).Some? {
      assert |MapFormat(t, block, v).flags| == |without.flags| + 1;
    }
    if IsUnknown(t, v) {
      assert |MapFormat(t, block, v).unmappedFormats| == |without.unmappedFormats| + 1;
    }
    if ItemOf(t, v).Some? {
      assert |MapFormat(t, block, v).items| == |without.items| + 1;
    }
  }

  // ---- Two containers ----

  /** A taxonomy with two names that stand for containers. */
  const TWO_CONTAINERS: Taxonomy :=
    Taxonomy("1", map[], map[],
             map["Box Set" := FormatEntry(None, None, None, Some("box_set"), None),
                 "Slipcase" := FormatEntry(None, None, None, Some("slipcase"), None)],
             map[])

  function NamedFormat(name: string): Value {
    Obj(map["name" := Str(name)])
  }

  /** A box set in a slipcase is a slipcase: the first container is lost. */
  lemma BoxSetIsLost()
    ensures var formats := Some(Arr([NamedFormat("Box Set"), NamedFormat("Slipcase")]));
            && MapFormats(TWO_CONTAINERS, formats).container == Some("slipcase")
            && NamedContainer(TWO_CONTAINERS, NamedFormat("Box Set")) == Some("box_set")
  {
    var formats := Some(Arr([NamedFormat("Box Set"), NamedFormat("Slipcase")]));
    var entries := Entries(formats);
    assert NamedContainer(TWO_CONTAINERS, entries[0]) == Some("box_set");
    assert NamedContainer(TWO_CONTAINERS, entries[1]) == Some("slipcase");
    assert IsLastNamed(TWO_CONTAINERS, entries, 1);
    ScalarFacts(TWO_CONTAINERS, formats);
  }
}
