/** How texts are read from the fields of a list entry, and what the identifier and company blocks
    make of an entry. */
module FieldFacts {
  import opened Json
  import opened Strings
  import opened Fields
  import Identifiers
  import Companies
  import opened Sorting
  import opened Numbers

  // ---- Trimming ----

  predicate AllWhite(text: string) {
    forall i :: 0 <= i < |text| ==> IsWhite(text[i])
  }

  lemma {:induction false} TrimStartPads(before: string, rest: string)
    requires AllWhite(before) && (rest != [] ==> !IsWhite(rest[0]))
    ensures TrimStart(before + rest) == rest
    decreases |before|
  {
    if before == [] {
      assert before + rest == rest;
    } else {
      assert (before + rest)[1..] == before[1..] + rest;
      TrimStartPads(before[1..], rest);
    }
  }

  lemma {:induction false} TrimEndPads(rest: string, after: string)
    requires AllWhite(after) && (rest != [] ==> !IsWhite(rest[|rest| - 1]))
    ensures TrimEnd(rest + after) == rest
    decreases |after|
  {
    if after == [] {
      assert rest + after == rest;
    } else {
      assert (rest + after)[..|rest + after| - 1] == rest + after[..|after| - 1];
      TrimEndPads(rest, after[..|after| - 1]);
    }
  }

  /** Trimming takes away white space at both ends, all of it and nothing else. */
  lemma TrimPads(before: string, core: string, after: string)
    requires AllWhite(before) && AllWhite(after) && IsTrimmed(core)
    ensures Trim(before + core + after) == core
  {
    if core == [] {
      assert before + core + after == (before + after) + [];
      TrimStartPads(before + after, []);
    } else {
      assert before + core + after == before + (core + after);
      TrimStartPads(before, core + after);
      TrimEndPads(core, after);
    }
  }

  lemma {:induction false} StartSplits(text: string) returns (before: string)
    ensures AllWhite(before) && text == before + TrimStart(text)
  {
    if text != [] && IsWhite(text[0]) {
      before := StartSplits(text[1..]);
      assert text == [text[0]] + text[1..];
      before := [text[0]] + before;
    } else {
      before := [];
    }
  }

  lemma {:induction false} EndSplits(text: string) returns (after: string)
    ensures AllWhite(after) && text == TrimEnd(text) + after
  {
    if text != [] && IsWhite(text[|text| - 1]) {
      after := EndSplits(text[..|text| - 1]);
      assert text == text[..|text| - 1] + [text[|text| - 1]];
      after := after + [text[|text| - 1]];
    } else {
      after := [];
    }
  }

  /** The field is a string: this text, which is not empty and begins and ends with no white space,
      with white space around it. */
  ghost predicate Holds(entry: map<string, Value>, key: string, text: string) {
    && key in entry && entry[key].Str? && text != "" && IsTrimmed(text)
    && exists before, after ::
         AllWhite(before) && AllWhite(after) && entry[key].text == Padded(before, text, after)
  }

  function Padded(before: string, text: string, after: string): string {
    before + text + after
  }

  lemma TrimmedIff(entry: map<string, Value>, key: string, text: string)
    ensures Trimmed(entry, key) == Some(text) <==> Holds(entry, key, text)
  {
    if Holds(entry, key, text) {
      var before, after :| AllWhite(before) && AllWhite(after) && entry[key].text == Padded(before, text, after);
      TrimPads(before, text, after);
    }
    if Trimmed(entry, key) == Some(text) {
      TrimHolds(entry[key].text);
      var before := StartSplits(entry[key].text);
      var after := EndSplits(TrimStart(entry[key].text));
      assert entry[key].text == Padded(before, text, after);
    }
  }

  // ---- Companies ----

  /** A credit is an object with a name and a role. */
  lemma CompanyIsNamedIff(entry: Value)
    ensures Companies.NamesCompany(entry) <==>
            entry.Obj?
            && exists name, role ::
                 Holds(entry.fields, "name", name) && Holds(entry.fields, "entity_type_name", role)
  {
    if entry.Obj? {
      if Companies.NamesCompany(entry) {
        TrimmedIff(entry.fields, "name", Trimmed(entry.fields, "name").value);
        TrimmedIff(entry.fields, "entity_type_name", Trimmed(entry.fields, "entity_type_name").value);
      }
      if name, role :| Holds(entry.fields, "name", name) && Holds(entry.fields, "entity_type_name", role) {
        TrimmedIff(entry.fields, "name", name);
        TrimmedIff(entry.fields, "entity_type_name", role);
      }
    }
  }

  /** Its item has this name and role; the category is what the vocabulary has for the role, or the
      one for roles that it does not know. The catalogue number is there if the entry states one. */
  lemma CompanyIsMapped(v: Companies.Vocabulary, entry: Value, name: string, role: string)
    requires entry.Obj? && Holds(entry.fields, "name", name) && Holds(entry.fields, "entity_type_name", role)
    ensures Companies.NamesCompany(entry)
    ensures var item := Companies.CompanyItem(v, entry);
            && item.name == name && item.role == role
            && item.roleCategory == (if role in v.roles then v.roles[role] else v.unmappedCategory)
            && item.source.provider == "discogs"
            && forall catno :: item.catno == Some(catno) <==> Holds(entry.fields, "catno", catno)
  {
    TrimmedIff(entry.fields, "name", name);
    TrimmedIff(entry.fields, "entity_type_name", role);
    forall catno ensures Trimmed(entry.fields, "catno") == Some(catno) <==> Holds(entry.fields, "catno", catno) {
      TrimmedIff(entry.fields, "catno", catno);
    }
  }

  lemma {:induction false} CompaniesAppend(v: Companies.Vocabulary, a: seq<Value>, b: seq<Value>)
    ensures Companies.Items(v, a + b) == Companies.Items(v, a) + Companies.Items(v, b)
    decreases |b|
  {
    if b == [] {
      assert a + b == a;
    } else {
      var k := |b| - 1;
      assert (a + b)[..|a + b| - 1] == a + b[..k];
      CompaniesAppend(v, a, b[..k]);
    }
  }

  /** Wherever a credit stands in the list, its item stands between those before it and those after
      it; an entry that is no credit makes none. */
  lemma CompanyInPlace(v: Companies.Vocabulary, before: seq<Value>, entry: Value, after: seq<Value>)
    ensures Companies.MapCompanies(v, Some(Arr(before + [entry] + after))).items
         == Companies.MapCompanies(v, Some(Arr(before))).items
            + (if Companies.NamesCompany(entry) then [Companies.CompanyItem(v, entry)] else [])
            + Companies.MapCompanies(v, Some(Arr(after))).items
  {
    CompaniesAppend(v, before + [entry], after);
    CompaniesAppend(v, before, [entry]);
    assert [entry][..0] == [];
  }

  lemma SignedDigits(sign: string, digits: string)
    requires AllDigits(digits) && (sign == "" || sign == "+")
    ensures IsTrimmed(sign + digits)
    ensures Companies.ParseU64(sign + digits)
         == if Number(digits) < Companies.U64_LIMIT then Some(Number(digits)) else None
  {
    var text := sign + digits;
    assert IsDigit(digits[0]) && IsDigit(digits[|digits| - 1]);
    assert text[|text| - 1] == digits[|digits| - 1];
    if sign == "+" {
      assert text[0] == '+' && text[1..] == digits;
    } else {
      assert text == digits;
    }
  }

  /** A text with white space around it, or a plus sign before its digits, is the same id. */
  lemma IdIsRead(entry: map<string, Value>, before: string, sign: string, digits: string, after: string)
    requires AllWhite(before) && AllWhite(after) && AllDigits(digits) && (sign == "" || sign == "+")
    ensures Companies.DiscogsId(entry["id" := Str(before + (sign + digits) + after)])
         == if 1 <= Number(digits) < Companies.U64_LIMIT then Some(Number(digits)) else None
  {
    SignedDigits(sign, digits);
    TrimPads(before, sign + digits, after);
  }

  /** A code is a text of digits, white space around it aside, and no other text is one. */
  lemma CodeIsRead(entry: map<string, Value>, before: string, text: string, after: string)
    requires AllWhite(before) && AllWhite(after) && IsTrimmed(text)
    ensures Companies.EntityType(entry["entity_type" := Str(before + text + after)])
         == if AllDigits(text) then Some(text) else None
  {
    TrimPads(before, text, after);
  }

  /** Without these keys, and with values of other kinds, there is neither; nor with a number that does
      not fit into 64 bits. */
  lemma NoIdNoCode(entry: map<string, Value>)
    ensures ("id" in entry ==> !entry["id"].Num? && !entry["id"].Str?) ==> Companies.DiscogsId(entry) == None
    ensures ("entity_type" in entry ==> !entry["entity_type"].Num? && !entry["entity_type"].Str?) ==>
              Companies.EntityType(entry) == None
    ensures "id" in entry && entry["id"].Num? && entry["id"].number >= Companies.U64_LIMIT ==>
              Companies.DiscogsId(entry) == None
    ensures "entity_type" in entry && entry["entity_type"].Num?
            && entry["entity_type"].number >= Companies.U64_LIMIT ==>
              Companies.EntityType(entry) == None
  {
  }

  // ---- Identifiers ----

  /** An identifier is an object with a type and a value. */
  lemma IdentifierIsNamedIff(entry: Value)
    ensures Identifiers.NamesIdentifier(entry) <==>
            entry.Obj?
            && exists rawType, value :: Holds(entry.fields, "type", rawType) && Holds(entry.fields, "value", value)
  {
    if entry.Obj? {
      if Identifiers.NamesIdentifier(entry) {
        TrimmedIff(entry.fields, "type", Trimmed(entry.fields, "type").value);
        TrimmedIff(entry.fields, "value", Trimmed(entry.fields, "value").value);
      }
      if rawType, value :| Holds(entry.fields, "type", rawType) && Holds(entry.fields, "value", value) {
        TrimmedIff(entry.fields, "type", rawType);
        TrimmedIff(entry.fields, "value", value);
      }
    }
  }

  /** Its item has the vocabulary's type for the raw one, or the one for types that it does not know,
      and keeps the raw type as its source. */
  lemma IdentifierIsMapped(v: Identifiers.Vocabulary, entry: Value, rawType: string, value: string)
    requires entry.Obj? && Holds(entry.fields, "type", rawType) && Holds(entry.fields, "value", value)
    ensures Identifiers.NamesIdentifier(entry)
    ensures var item := Identifiers.IdentifierItem(v, entry);
            && item.typeId == (if rawType in v.types then v.types[rawType] else v.unmappedType)
            && item.value == value
            && item.source == Identifiers.Source("discogs", Some(rawType), v.identifierField)
            && forall text :: item.description == Some(text) <==> Holds(entry.fields, "description", text)
  {
    TrimmedIff(entry.fields, "type", rawType);
    TrimmedIff(entry.fields, "value", value);
    forall text
      ensures Trimmed(entry.fields, "description") == Some(text) <==> Holds(entry.fields, "description", text) {
      TrimmedIff(entry.fields, "description", text);
    }
  }

  /** A label counts if it states a catalogue number that is not, in lower case, the mark for none;
      and its item is that number. */
  lemma CatalogNumberIsMapped(v: Identifiers.Vocabulary, entry: Value)
    ensures Identifiers.NamesCatalogNumber(v, entry) <==>
            entry.Obj?
            && exists number :: Holds(entry.fields, "catno", number) && v.lower(number) != v.absentCatalogNumber
    ensures forall number ::
              Identifiers.NamesCatalogNumber(v, entry) && Holds(entry.fields, "catno", number) ==>
                Identifiers.CatalogItem(v, entry)
                == Identifiers.Item("catalog_number", number, None,
                                    Identifiers.Source("discogs", None, v.catalogNumberField))
  {
    if entry.Obj? {
      forall number ensures Trimmed(entry.fields, "catno") == Some(number) <==> Holds(entry.fields, "catno", number) {
        TrimmedIff(entry.fields, "catno", number);
      }
      if Identifiers.NamesCatalogNumber(v, entry) {
        assert Holds(entry.fields, "catno", Trimmed(entry.fields, "catno").value);
      }
    }
  }

  lemma {:induction false} IdentifiersAppend(v: Identifiers.Vocabulary, a: seq<Value>, b: seq<Value>)
    ensures Identifiers.IdentifierItems(v, a + b)
            == Identifiers.IdentifierItems(v, a) + Identifiers.IdentifierItems(v, b)
    ensures Identifiers.CatalogItems(v, a + b) == Identifiers.CatalogItems(v, a) + Identifiers.CatalogItems(v, b)
    decreases |b|
  {
    if b == [] {
      assert a + b == a;
    } else {
      var k := |b| - 1;
      assert (a + b)[..|a + b| - 1] == a + b[..k];
      IdentifiersAppend(v, a, b[..k]);
    }
  }

  lemma BlockItems(v: Identifiers.Vocabulary, identifiers: Option<Value>, labels: Option<Value>)
    ensures Identifiers.MapIdentifiers(v, identifiers, labels).items
         == Identifiers.IdentifierItems(v, Entries(identifiers)) + Identifiers.CatalogItems(v, Entries(labels))
  {
  }

  lemma Between<T>(a: seq<T>, b: seq<T>, c: seq<T>, d: seq<T>)
    ensures (a + b + c) + d == a + b + (c + d)
    ensures a + (b + c + d) == (a + b) + c + d
  {
  }

  /** The items: the identifiers in their order, and after them the catalogue numbers in theirs. */
  lemma IdentifierInPlace(v: Identifiers.Vocabulary, before: seq<Value>, entry: Value, after: seq<Value>,
                          labels: Option<Value>)
    ensures var here := if Identifiers.NamesIdentifier(entry) then [Identifiers.IdentifierItem(v, entry)] else [];
            Identifiers.MapIdentifiers(v, Some(Arr(before + [entry] + after)), labels).items
            == Identifiers.IdentifierItems(v, before) + here
               + Identifiers.MapIdentifiers(v, Some(Arr(after)), labels).items
  {
    BlockItems(v, Some(Arr(before + [entry] + after)), labels);
    BlockItems(v, Some(Arr(after)), labels);
    IdentifiersAppend(v, before + [entry], after);
    IdentifiersAppend(v, before, [entry]);
    OneEntry(v, entry);
    Between(Identifiers.IdentifierItems(v, before), Identifiers.IdentifierItems(v, [entry]),
            Identifiers.IdentifierItems(v, after), Identifiers.CatalogItems(v, Entries(labels)));
  }

  lemma OneEntry(v: Identifiers.Vocabulary, entry: Value)
    ensures Identifiers.IdentifierItems(v, [entry])
         == if Identifiers.NamesIdentifier(entry) then [Identifiers.IdentifierItem(v, entry)] else []
    ensures Identifiers.CatalogItems(v, [entry])
         == if Identifiers.NamesCatalogNumber(v, entry) then [Identifiers.CatalogItem(v, entry)] else []
  {
    assert [entry][..0] == [];
    assert Identifiers.IdentifierItems(v, []) == [] && Identifiers.CatalogItems(v, []) == [];
  }

  lemma LabelInPlace(v: Identifiers.Vocabulary, identifiers: Option<Value>, before: seq<Value>, entry: Value,
                     after: seq<Value>)
    ensures var here := if Identifiers.NamesCatalogNumber(v, entry) then [Identifiers.CatalogItem(v, entry)] else [];
            Identifiers.MapIdentifiers(v, identifiers, Some(Arr(before + [entry] + after))).items
            == Identifiers.MapIdentifiers(v, identifiers, Some(Arr(before))).items + here
               + Identifiers.CatalogItems(v, after)
  {
    BlockItems(v, identifiers, Some(Arr(before + [entry] + after)));
    BlockItems(v, identifiers, Some(Arr(before)));
    IdentifiersAppend(v, before + [entry], after);
    IdentifiersAppend(v, before, [entry]);
    OneEntry(v, entry);
    Between(Identifiers.IdentifierItems(v, Entries(identifiers)), Identifiers.CatalogItems(v, before),
            Identifiers.CatalogItems(v, [entry]), Identifiers.CatalogItems(v, after));
  }

  lemma {:induction false} AliasesFrom(v: Identifiers.Vocabulary, items: seq<Identifiers.Item>,
                                       alias: Identifiers.Alias)
    ensures alias in Identifiers.Aliases(v, items) <==>
            exists x :: x in items && Identifiers.AliasOf(v, x) == Some(alias)
  {
    if items != [] {
      var k := |items| - 1;
      AliasesFrom(v, items[..k], alias);
      assert items == items[..k] + [items[k]];
    }
  }

  /** An alias is minted by an item whose type has a namespace, for its provider, with what the
      namespace's rule leaves of the value; and by nothing else. */
  lemma AliasIff(v: Identifiers.Vocabulary, identifiers: Option<Value>, labels: Option<Value>, alias: Identifiers.Alias)
    ensures var b := Identifiers.MapIdentifiers(v, identifiers, labels);
            alias in Elements(b.aliases) <==>
            exists x :: x in b.items && Mints(v, x, alias)
  {
    var b := Identifiers.MapIdentifiers(v, identifiers, labels);
    Identifiers.BlockIsCanonical(v, identifiers, labels);
    AliasesFrom(v, b.items, alias);
    MemberIsElement(Identifiers.Aliases(v, b.items), alias);
    forall x ensures Identifiers.AliasOf(v, x) == Some(alias) <==> Mints(v, x, alias) {
    }
  }

  predicate Mints(v: Identifiers.Vocabulary, x: Identifiers.Item, alias: Identifiers.Alias) {
    && x.typeId in v.namespaces && v.namespaces[x.typeId].provider == alias.provider
    && Identifiers.NormalizeAliasValue(v, v.namespaces[x.typeId].normalization, x.value) == Some(alias.externalId)
  }

  lemma UnmappedOne(v: Identifiers.Vocabulary, entry: Value, rawType: string)
    ensures rawType in Identifiers.UnmappedTypes(v, Identifiers.IdentifierItems(v, [entry])) <==>
            rawType !in v.types && HasType(entry, rawType)
  {
    OneEntry(v, entry);
    if Identifiers.NamesIdentifier(entry) {
      TrimmedIff(entry.fields, "type", rawType);
      var item := Identifiers.IdentifierItem(v, entry);
      assert [item][..0] == [] && Identifiers.UnmappedTypes(v, []) == [];
    } else {
      assert Identifiers.UnmappedTypes(v, []) == [];
    }
  }

  ghost predicate HasType(entry: Value, rawType: string) {
    Identifiers.NamesIdentifier(entry) && Holds(entry.fields, "type", rawType)
  }

  lemma {:induction false} UnmappedFrom(v: Identifiers.Vocabulary, entries: seq<Value>, rawType: string)
    ensures rawType in Identifiers.UnmappedTypes(v, Identifiers.IdentifierItems(v, entries)) <==>
            rawType !in v.types && exists e :: e in entries && HasType(e, rawType)
  {
    if entries != [] {
      var k := |entries| - 1;
      assert entries == entries[..k] + [entries[k]];
      UnmappedFrom(v, entries[..k], rawType);
      UnmappedOne(v, entries[k], rawType);
      IdentifiersAppend(v, entries[..k], [entries[k]]);
      Identifiers.UnmappedAppend(v, Identifiers.IdentifierItems(v, entries[..k]),
                                 Identifiers.IdentifierItems(v, [entries[k]]));
    }
  }

  /** A type is listed as unmapped exactly if an identifier of the list has it and the vocabulary does
      not. */
  lemma UnmappedIff(v: Identifiers.Vocabulary, identifiers: Option<Value>, labels: Option<Value>, rawType: string)
    ensures rawType in Elements(Identifiers.MapIdentifiers(v, identifiers, labels).unmapped) <==>
            rawType !in v.types && exists e :: e in Entries(identifiers) && HasType(e, rawType)
  {
    var b := Identifiers.MapIdentifiers(v, identifiers, labels);
    var found, numbers := Identifiers.IdentifierItems(v, Entries(identifiers)),
      Identifiers.CatalogItems(v, Entries(labels));
    Identifiers.BlockIsCanonical(v, identifiers, labels);
    UnmappedFrom(v, Entries(identifiers), rawType);
    Identifiers.CatalogItemsUntyped(v, Entries(labels));
    Identifiers.UntypedAreMapped(v, numbers);
    Identifiers.UnmappedAppend(v, found, numbers);
    MemberIsElement(Identifiers.UnmappedTypes(v, b.items), rawType);
  }

  // ---- Alias values ----

  lemma {:induction false} DigitsAppend(a: string, b: string)
    ensures Identifiers.DigitsOnly(a + b) == Identifiers.DigitsOnly(a) + Identifiers.DigitsOnly(b)
  {
    if a == [] {
      assert a + b == b;
    } else {
      assert (a + b)[1..] == a[1..] + b;
      DigitsAppend(a[1..], b);
    }
  }

  /** The first rule leaves the digits, wherever they stand, in their order. */
  lemma DigitsAreLeft(before: string, c: char, after: string)
    ensures Identifiers.DigitsOnly(before + [c] + after)
         == Identifiers.DigitsOnly(before) + (if IsDigit(c) then [c] else []) + Identifiers.DigitsOnly(after)
  {
    DigitsAppend(before + [c], after);
    DigitsAppend(before, [c]);
    assert [c][1..] == [];
  }

  /** Mapping case replaces each character by what the table has for it, wherever it stands. */
  lemma EachIsMapped(upper: char -> string, before: string, c: char, after: string)
    ensures Identifiers.Upper(upper, before + [c] + after)
         == Identifiers.Upper(upper, before) + upper(c) + Identifiers.Upper(upper, after)
  {
    Identifiers.UpperJoins(upper, before + [c], after);
    Identifiers.UpperJoins(upper, before, [c]);
    assert [c][1..] == [];
  }

  /** Words with these gaps between them. */
  function Spaced(words: seq<string>, gaps: seq<string>): string
    requires |gaps| == |words|
  {
    if words == [] then [] else words[0] + gaps[0] + Spaced(words[1..], gaps[1..])
  }

  lemma {:induction false} SkipsGap(gap: string, rest: string)
    requires AllWhite(gap)
    ensures Identifiers.Words(gap + rest, []) == Identifiers.Words(rest, [])
  {
    if gap == [] {
      assert gap + rest == rest;
    } else {
      assert (gap + rest)[1..] == gap[1..] + rest;
      SkipsGap(gap[1..], rest);
    }
  }

  lemma {:induction false} WordsAreFound(words: seq<string>, gaps: seq<string>)
    requires |gaps| == |words| && Identifiers.AreWords(words)
    requires forall i :: 0 <= i < |gaps| ==> AllWhite(gaps[i]) && (i < |gaps| - 1 ==> gaps[i] != "")
    ensures Identifiers.Words(Spaced(words, gaps), []) == words
  {
    if words != [] {
      var gap, rest := gaps[0], Spaced(words[1..], gaps[1..]);
      WordsAreFound(words[1..], gaps[1..]);
      assert words[0] + gap + rest == words[0] + (gap + rest);
      Identifiers.ReadsWord(words[0], gap + rest, []);
      assert [] + words[0] == words[0];
      if gap == "" {
        assert |words| == 1 && rest == "" && gap + rest == "";
      } else {
        assert (gap + rest)[0] == gap[0] && (gap + rest)[1..] == gap[1..] + rest;
        SkipsGap(gap[1..], rest);
      }
    }
  }

  /** The second rule puts one space between words, and none around them; the third does so and maps
      case; what leaves nothing mints nothing, and so does any other rule. */
  lemma RulesAre(v: Identifiers.Vocabulary, lead: string, words: seq<string>, gaps: seq<string>, rule: string)
    requires |gaps| == |words| && Identifiers.AreWords(words) && AllWhite(lead)
    requires forall i :: 0 <= i < |gaps| ==> AllWhite(gaps[i]) && (i < |gaps| - 1 ==> gaps[i] != "")
    ensures var value := lead + Spaced(words, gaps);
            var result := Identifiers.NormalizeAliasValue(v, rule, value);
            && (rule == "digits_only" ==> result == NonEmpty(Identifiers.DigitsOnly(value)))
            && (rule == "collapse_space" ==> result == NonEmpty(Identifiers.Join(words)))
            && (rule == "upper_collapse_space" ==>
                  result == NonEmpty(Identifiers.Upper(v.upper, Identifiers.Join(words))))
            && (rule != "digits_only" && rule != "collapse_space" && rule != "upper_collapse_space" ==> result == None)
  {
    SkipsGap(lead, Spaced(words, gaps));
    WordsAreFound(words, gaps);
  }

  function NonEmpty(text: string): Option<string> {
    if text == "" then None else Some(text)
  }
}
