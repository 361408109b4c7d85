/** The order of strings that `BTreeMap` keys and sorted lists follow: by code points. */
module Strings {
  import opened Sorting

  predicate Less(a: string, b: string)
    decreases |a|
  {
    b != [] && (a == [] || a[0] < b[0] || (a[0] == b[0] && Less(a[1..], b[1..])))
  }

  lemma {:induction false} LessTotal(a: string, b: string)
    ensures a == b || Less(a, b) || Less(b, a)
    decreases |a|
  {
    if a != [] && b != [] && a[0] == b[0] {
      LessTotal(a[1..], b[1..]);
      assert a == [a[0]] + a[1..] && b == [b[0]] + b[1..];
    }
  }

  lemma {:induction false} LessTransitive(a: string, b: string, c: string)
    requires Less(a, b) && Less(b, c)
    ensures Less(a, c)
    decreases |a|
  {
    if a != [] && a[0] == b[0] && b[0] == c[0] {
      LessTransitive(a[1..], b[1..], c[1..]);
    }
  }

  lemma {:induction false} LessIrreflexive(a: string)
    ensures !Less(a, a)
  {
    if a != [] {
      LessIrreflexive(a[1..]);
    }
  }

  lemma LessIsOrder()
    ensures Order(Less)
  {
    forall a, b ensures !Less(a, a) && (a == b || Less(a, b) || Less(b, a)) {
      LessIrreflexive(a);
      LessTotal(a, b);
    }
    forall a, b, c | Less(a, b) && Less(b, c) ensures Less(a, c) {
      LessTransitive(a, b, c);
    }
  }

  predicate Increasing(list: seq<string>) {
    IncreasingBy(list, Less)
  }

  /** The keys as a map visits them. */
  function Sorted(keys: set<string>): seq<string> {
    LessIsOrder();
    SortedBy(keys, Less)
  }

  lemma SortedHolds(keys: set<string>)
    ensures Elements(Sorted(keys)) == keys
    ensures Increasing(Sorted(keys))
  {
    LessIsOrder();
    SortedElements(keys, Less);
    SortedIncreases(keys, Less);
  }

  /** The `sorted_unique` of the blocks. */
  method SortedUniqueStrings(values: seq<string>) returns (unique: seq<string>)
    ensures unique == Sorted(Elements(values))
  {
    LessIsOrder();
    unique := SortedUnique(values, Less);
  }

  /** The key of an attribute among the fields of an object. */
  predicate IsAt(key: string) {
    key != [] && key[0] == '@'
  }

  // ---- Trimming ----

  /** Unicode's White_Space property. */
  predicate IsWhite(c: char) {
    || '\U{0009}' <= c <= '\U{000D}' || c == ' ' || c == '\U{0085}' || c == '\U{00A0}'
    || c == '\U{1680}' || '\U{2000}' <= c <= '\U{200A}' || c == '\U{2028}' || c == '\U{2029}'
    || c == '\U{202F}' || c == '\U{205F}' || c == '\U{3000}'
  }

  function TrimStart(s: string): string {
    if s != [] && IsWhite(s[0]) then TrimStart(s[1..]) else s
  }

  function TrimEnd(s: string): string {
    if s != [] && IsWhite(s[|s| - 1]) then TrimEnd(s[..|s| - 1]) else s
  }

  function Trim(s: string): string {
    TrimEnd(TrimStart(s))
  }

  /** Neither end is white. */
  predicate IsTrimmed(s: string) {
    s == [] || (!IsWhite(s[0]) && !IsWhite(s[|s| - 1]))
  }

  lemma {:induction false} TrimStartStops(s: string)
    ensures TrimStart(s) == [] || !IsWhite(TrimStart(s)[0])
  {
    if s != [] && IsWhite(s[0]) {
      TrimStartStops(s[1..]);
    }
  }

  lemma {:induction false} TrimEndStops(s: string)
    requires s == [] || !IsWhite(s[0])
    ensures IsTrimmed(TrimEnd(s))
  {
    if s != [] && IsWhite(s[|s| - 1]) {
      TrimEndStops(s[..|s| - 1]);
    }
  }

  /** A trimmed string is trimmed, and trimming it again changes nothing. */
  lemma TrimHolds(s: string)
    ensures IsTrimmed(Trim(s)) && Trim(Trim(s)) == Trim(s)
  {
    TrimStartStops(s);
    TrimEndStops(TrimStart(s));
    TrimmedStays(Trim(s));
  }

  lemma TrimmedStays(s: string)
    requires IsTrimmed(s)
    ensures Trim(s) == s
  {
  }
}
