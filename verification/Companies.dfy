/** The canonical companies block of a release. */
module Companies {
  import opened Json
  import opened Sorting
  import opened Strings
  import opened Fields
  import opened Numbers

  const U64_LIMIT: int := 0x1_0000_0000_0000_0000
  const I64_MIN: int := -0x8000_0000_0000_0000

  datatype Vocabulary = Vocabulary(version: string, unmappedCategory: string, roles: map<string, string>)

  datatype Source = Source(provider: string, entityType: Option<string>)
  datatype Item = Item(name: string, discogsId: Option<nat>, role: string, roleCategory: string, catno: Option<string>,
                       source: Source)
  datatype Block = Block(version: string, items: seq<Item>, roleCategories: seq<string>, unmapped: seq<string>)

  /** A text as an unsigned 64-bit number: digits, perhaps after a plus sign. */
  function ParseU64(text: string): Option<nat> {
    var digits := if text != [] && text[0] == '+' then text[1..] else text;
    if AllDigits(digits) && Number(digits) < U64_LIMIT then Some(Number(digits)) else None
  }

  /** The label id: a whole number of at least one, as a number or as text. */
  function DiscogsId(entry: map<string, Value>): (id: Option<nat>)
    ensures id.Some? ==> 1 <= id.value < U64_LIMIT
  {
    if "id" !in entry then None
    else
      var number :=
        match entry["id"]
        case Num(n) => if 0 <= n < U64_LIMIT then Some(n) else None
        case Str(text) => ParseU64(Trim(text))
        case _ => None;
      if number.Some? && number.value >= 1 then number else None
  }

  /** The relationship code: digits, as text or from a number. */
  function EntityType(entry: map<string, Value>): (code: Option<string>)
    ensures code.Some? ==> AllDigits(code.value)
  {
    if "entity_type" !in entry then None
    else
      var code :=
        match entry["entity_type"]
        case Str(text) => Some(Trim(text))
        case Num(n) => if I64_MIN <= n < U64_LIMIT then Some(Decimal(n)) else None
        case _ => None;
      if code.Some? && AllDigits(code.value) then code else None
  }

  predicate NamesCompany(entry: Value) {
    entry.Obj? && Trimmed(entry.fields, "name").Some? && Trimmed(entry.fields, "entity_type_name").Some?
  }

  function CompanyItem(v: Vocabulary, entry: Value): Item
    requires NamesCompany(entry)
  {
    var role := Trimmed(entry.fields, "entity_type_name").value;
    Item(Trimmed(entry.fields, "name").value, DiscogsId(entry.fields), role,
         if role in v.roles then v.roles[role] else v.unmappedCategory,
         Trimmed(entry.fields, "catno"), Source("discogs", EntityType(entry.fields)))
  }

  function Items(v: Vocabulary, entries: seq<Value>): seq<Item> {
    if entries == [] then []
    else
      var k := |entries| - 1;
      Items(v, entries[..k]) + (if NamesCompany(entries[k]) then [CompanyItem(v, entries[k])] else [])
  }

  function Categories(items: seq<Item>): seq<string> {
    seq(|items|, i requires 0 <= i < |items| => items[i].roleCategory)
  }

  function UnmappedRoles(v: Vocabulary, items: seq<Item>): seq<string> {
    if items == [] then []
    else
      var k := |items| - 1;
      UnmappedRoles(v, items[..k]) + (if items[k].role in v.roles then [] else [items[k].role])
  }

  function MapCompanies(v: Vocabulary, companies: Option<Value>): Block {
    var items := Items(v, Entries(companies));
    Block(v.version, items, Sorted(Elements(Categories(items))), Sorted(Elements(UnmappedRoles(v, items))))
  }

  /** The mapper's loop. */
  method MapDiscogsCompanies(v: Vocabulary, companies: Option<Value>) returns (block: Block)
    ensures block == MapCompanies(v, companies)
  {
    var entries := Entries(companies);
    var items: seq<Item>, unmapped := [], [];
    for i := 0 to |entries|
      invariant items == Items(v, entries[..i]) && unmapped == UnmappedRoles(v, items)
    {
      assert entries[..i + 1][..i] == entries[..i];
      if !entries[i].Obj? {
        continue;
      }
      var name, role := Trimmed(entries[i].fields, "name"), Trimmed(entries[i].fields, "entity_type_name");
      if name == None || role == None {
        continue;
      }
      var category := if role.value in v.roles then Some(v.roles[role.value]) else None;
      if category == None {
        unmapped := unmapped + [role.value];
      }
      var item := Item(name.value, DiscogsId(entries[i].fields), role.value,
                       if category.Some? then category.value else v.unmappedCategory,
                       Trimmed(entries[i].fields, "catno"), Source("discogs", EntityType(entries[i].fields)));
      assert (items + [item])[..|items|] == items;
      items := items + [item];
    }
    assert entries[..|entries|] == entries;
    var categories := SortedUniqueStrings(Categories(items));
    var roles := SortedUniqueStrings(unmapped);
    block := Block(v.version, items, categories, roles);
  }

  // ---- The lists are canonical ----

  lemma {:induction false} ItemsFrom(v: Vocabulary, entries: seq<Value>, x: Item)
    ensures x in Items(v, entries) <==> exists e :: e in entries && NamesCompany(e) && CompanyItem(v, e) == x
  {
    if entries != [] {
      var k := |entries| - 1;
      ItemsFrom(v, entries[..k], x);
      assert entries == entries[..k] + [entries[k]];
    }
  }

  predicate IsUnmapped(v: Vocabulary, x: Item, role: string) {
    x.role == role && role !in v.roles
  }

  lemma {:induction false} UnmappedFrom(v: Vocabulary, items: seq<Item>, role: string)
    ensures role in UnmappedRoles(v, items) <==> exists x :: x in items && IsUnmapped(v, x, role)
  {
    if items != [] {
      var k := |items| - 1;
      UnmappedFrom(v, items[..k], role);
      assert items == items[..k] + [items[k]];
      assert IsUnmapped(v, items[k], role) <==> items[k].role == role && role !in v.roles;
    }
  }

  lemma CategoriesFrom(items: seq<Item>, category: string)
    ensures category in Elements(Categories(items)) <==> exists x :: x in items && x.roleCategory == category
  {
    if category in Elements(Categories(items)) {
      var i :| 0 <= i < |items| && Categories(items)[i] == category;
      assert items[i] in items;
    }
    if x :| x in items && x.roleCategory == category {
      var i :| 0 <= i < |items| && items[i] == x;
      assert Categories(items)[i] == category;
    }
  }

  /** Both lists are strictly increasing and hold exactly what the items say. */
  lemma BlockIsCanonical(v: Vocabulary, companies: Option<Value>)
    ensures var b := MapCompanies(v, companies);
            && Increasing(b.roleCategories) && Increasing(b.unmapped)
            && (forall c :: c in Elements(b.roleCategories) <==> exists x :: x in b.items && x.roleCategory == c)
            && (forall r :: r in Elements(b.unmapped) <==> exists x :: x in b.items && IsUnmapped(v, x, r))
  {
    var items := Items(v, Entries(companies));
    SortedHolds(Elements(Categories(items)));
    SortedHolds(Elements(UnmappedRoles(v, items)));
    forall c ensures c in Elements(Categories(items)) <==> exists x :: x in items && x.roleCategory == c {
      CategoriesFrom(items, c);
    }
    forall r ensures r in Elements(UnmappedRoles(v, items)) <==> exists x :: x in items && IsUnmapped(v, x, r) {
      UnmappedFrom(v, items, r);
      MemberIsElement(UnmappedRoles(v, items), r);
    }
  }

  /** They depend only on which entries there are. */
  lemma ListsIgnoreOrder(v: Vocabulary, companies: Option<Value>, companies': Option<Value>)
    requires SameMembers(Entries(companies), Entries(companies'))
    ensures var b, b' := MapCompanies(v, companies), MapCompanies(v, companies');
            b'.roleCategories == b.roleCategories && b'.unmapped == b.unmapped
  {
    var items, items' := Items(v, Entries(companies)), Items(v, Entries(companies'));
    forall x ensures x in items <==> x in items' {
      ItemsFrom(v, Entries(companies), x);
      ItemsFrom(v, Entries(companies'), x);
    }
    forall c ensures c in Elements(Categories(items)) <==> c in Elements(Categories(items')) {
      CategoriesFrom(items, c);
      CategoriesFrom(items', c);
    }
    assert Elements(Categories(items)) == Elements(Categories(items'));
    forall r ensures r in Elements(UnmappedRoles(v, items)) <==> r in Elements(UnmappedRoles(v, items')) {
      UnmappedFrom(v, items, r);
      UnmappedFrom(v, items', r);
    }
    assert Elements(UnmappedRoles(v, items)) == Elements(UnmappedRoles(v, items'));
  }

  // ---- Text and numbers ----

  lemma DecimalHasSign(n: int)
    ensures Trim(Decimal(n)) == Decimal(n)
    ensures n < 0 ==> !AllDigits(Decimal(n)) && ParseU64(Decimal(n)) == None
    ensures n >= 0 ==> AllDigits(Decimal(n)) && Number(Decimal(n)) == n
  {
    if n < 0 {
      DecimalReads(-n);
      var text := Decimal(n);
      assert text == "-" + Decimal(-n) && text[0] == '-' && IsDigit(text[|text| - 1]);
    } else {
      DecimalReads(n);
      DigitsAreTrimmed(Decimal(n));
    }
  }

  /** An id means the same as element text, as the dump has it, and as a number, as the API does. */
  lemma IdShapesAgree(entry: map<string, Value>, n: int)
    ensures DiscogsId(entry["id" := Str(Decimal(n))]) == DiscogsId(entry["id" := Num(n)])
         == if 1 <= n < U64_LIMIT then Some(n) else None
  {
    DecimalHasSign(n);
  }

  /** So does a relationship code, for every number JSON keeps as a whole one. */
  lemma CodeShapesAgree(entry: map<string, Value>, n: int)
    requires I64_MIN <= n < U64_LIMIT
    ensures EntityType(entry["entity_type" := Str(Decimal(n))]) == EntityType(entry["entity_type" := Num(n)])
         == if n >= 0 then Some(Decimal(n)) else None
  {
    DecimalHasSign(n);
  }

  // ---- Provenance ----

  /** The raw entry an item was made from, as far as the block keeps it. */
  function RawEntry(item: Item): Value {
    Obj(map["name" := Str(item.name),
            "id" := if item.discogsId.Some? then Num(item.discogsId.value) else Null,
            "catno" := Optional(item.catno),
            "entity_type" := Optional(item.source.entityType),
            "entity_type_name" := Str(item.role)])
  }

  /** An item keeps every text of its entry, trimmed, and the id and code it can use. */
  lemma ItemKeepsFields(v: Vocabulary, entry: Value)
    requires NamesCompany(entry)
    ensures var raw := RawEntry(CompanyItem(v, entry)).fields;
            && (forall key :: key in ["name", "entity_type_name", "catno"] ==>
                key in raw && raw[key] == Optional(Trimmed(entry.fields, key)))
            && DiscogsId(raw) == DiscogsId(entry.fields) && EntityType(raw) == EntityType(entry.fields)
  {
    RawMapsBack(v, entry);
  }

  function RawEntries(items: seq<Item>): seq<Value> {
    seq(|items|, i requires 0 <= i < |items| => RawEntry(items[i]))
  }

  lemma DigitsAreTrimmed(code: string)
    requires AllDigits(code)
    ensures Trim(code) == code
  {
    assert IsDigit(code[0]) && IsDigit(code[|code| - 1]);
  }

  lemma RawMapsBack(v: Vocabulary, entry: Value)
    requires NamesCompany(entry)
    ensures NamesCompany(RawEntry(CompanyItem(v, entry)))
            && CompanyItem(v, RawEntry(CompanyItem(v, entry))) == CompanyItem(v, entry)
  {
    var item := CompanyItem(v, entry);
    var fields := RawEntry(item).fields;
    TrimmedIsUsable(entry.fields, "name");
    TrimmedIsUsable(entry.fields, "entity_type_name");
    TrimmedIsUsable(entry.fields, "catno");
    UsableIsRead(fields, "name", item.name);
    UsableIsRead(fields, "entity_type_name", item.role);
    OptionalIsRead(fields, "catno", item.catno);
    assert DiscogsId(fields) == item.discogsId;
    if item.source.entityType.Some? {
      DigitsAreTrimmed(item.source.entityType.value);
    }
    assert EntityType(fields) == item.source.entityType;
  }

  lemma {:induction false} RawItemsMapBack(v: Vocabulary, entries: seq<Value>)
    ensures Items(v, RawEntries(Items(v, entries))) == Items(v, entries)
  {
    if entries != [] {
      var k := |entries| - 1;
      var front := Items(v, entries[..k]);
      RawItemsMapBack(v, entries[..k]);
      if NamesCompany(entries[k]) {
        var item := CompanyItem(v, entries[k]);
        RawMapsBack(v, entries[k]);
        var raw := RawEntries(front + [item]);
        assert raw[..|raw| - 1] == RawEntries(front) && raw[|raw| - 1] == RawEntry(item);
      } else {
        assert Items(v, entries) == front;
      }
    }
  }

  /** Nothing is lost: the raw list rebuilt from the block's own items maps to the same block,
      for every input. */
  lemma ProvenanceRoundTrip(v: Vocabulary, companies: Option<Value>)
    ensures var b := MapCompanies(v, companies); MapCompanies(v, Some(Arr(RawEntries(b.items)))) == b
  {
    RawItemsMapBack(v, Entries(companies));
  }
}
