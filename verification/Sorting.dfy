/** Lists in the order of their elements, without repetition. */
module Sorting {

  /** A strict total order. */
  ghost predicate Order<T(!new)>(less: (T, T) -> bool) {
    && (forall a :: !less(a, a))
    && (forall a, b :: a == b || less(a, b) || less(b, a))
    && (forall a, b, c :: less(a, b) && less(b, c) ==> less(a, c))
  }

  predicate IsLeast<T(==)>(k: T, keys: set<T>, less: (T, T) -> bool) {
    k in keys && forall other :: other in keys ==> k == other || less(k, other)
  }

  lemma {:induction false} LeastExists<T(!new)>(keys: set<T>, less: (T, T) -> bool) returns (k: T)
    requires keys != {} && Order(less)
    ensures IsLeast(k, keys, less)
  {
    var one :| one in keys;
    var rest := keys - {one};
    if rest == {} {
      assert forall other :: other in keys ==> other == one || other in rest;
      k := one;
    } else {
      var least := LeastExists(rest, less);
      k := if less(one, least) then one else least;
      forall other | other in keys && other != k ensures less(k, other) {
        assert other == one || other in rest;
      }
    }
  }

  function Least<T(==, !new)>(keys: set<T>, less: (T, T) -> bool): (k: T)
    requires keys != {} && Order(less)
    ensures IsLeast(k, keys, less)
  {
    assert exists k :: IsLeast(k, keys, less) by {
      var k := LeastExists(keys, less);
    }
    var k :| IsLeast(k, keys, less);
    k
  }

  /** The elements from the least to the greatest. */
  function SortedBy<T(==, !new)>(keys: set<T>, less: (T, T) -> bool): seq<T>
    requires Order(less)
  {
    if keys == {} then []
    else
      var k := Least(keys, less);
      [k] + SortedBy(keys - {k}, less)
  }

  predicate IncreasingBy<T(==)>(list: seq<T>, less: (T, T) -> bool) {
    forall i, j :: 0 <= i < j < |list| ==> less(list[i], list[j])
  }

  function Elements<T(==)>(list: seq<T>): set<T> {
    set i | 0 <= i < |list| :: list[i]
  }

  lemma ElementsCons<T>(k: T, rest: seq<T>)
    ensures Elements([k] + rest) == {k} + Elements(rest)
  {
    var all := [k] + rest;
    assert all[0] == k;
    forall i | 0 <= i < |rest| ensures rest[i] in Elements(all) {
      assert all[i + 1] == rest[i];
    }
  }

  lemma {:induction false} SortedElements<T(!new)>(keys: set<T>, less: (T, T) -> bool)
    requires Order(less)
    ensures Elements(SortedBy(keys, less)) == keys
  {
    if keys != {} {
      var k := Least(keys, less);
      SortedElements(keys - {k}, less);
      ElementsCons(k, SortedBy(keys - {k}, less));
    }
  }

  lemma {:induction false} SortedIncreases<T(!new)>(keys: set<T>, less: (T, T) -> bool)
    requires Order(less)
    ensures IncreasingBy(SortedBy(keys, less), less)
  {
    if keys != {} {
      var k := Least(keys, less);
      var rest := SortedBy(keys - {k}, less);
      SortedIncreases(keys - {k}, less);
      SortedElements(keys - {k}, less);
      forall i | 0 <= i < |rest| ensures less(k, rest[i]) {
        assert rest[i] in Elements(rest);
      }
    }
  }

  /** Only one strictly increasing list has these elements. */
  lemma {:induction false} IncreasingIsSorted<T(!new)>(list: seq<T>, less: (T, T) -> bool)
    requires Order(less) && IncreasingBy(list, less)
    ensures list == SortedBy(Elements(list), less)
  {
    if list == [] {
      assert Elements(list) == {};
    } else {
      var rest := list[1..];
      assert list == [list[0]] + rest;
      ElementsCons(list[0], rest);
      forall i | 0 <= i < |rest| ensures rest[i] == list[i + 1] && less(list[0], rest[i]) {
      }
      assert list[0] !in Elements(rest);
      assert Elements(list) - {list[0]} == Elements(rest);
      assert IsLeast(list[0], Elements(list), less);
      IncreasingIsSorted(rest, less);
    }
  }

  lemma MemberIsElement<T>(list: seq<T>, x: T)
    ensures x in list <==> x in Elements(list)
  {
  }

  ghost predicate SameMembers<T(!new)>(a: seq<T>, b: seq<T>) {
    forall x :: x in a <==> x in b
  }

  lemma MembersElements<T(!new)>(a: seq<T>, b: seq<T>)
    requires SameMembers(a, b)
    ensures Elements(a) == Elements(b)
  {
    forall x | x in Elements(a) ensures x in Elements(b) {
      assert x in a && x in b;
    }
    forall x | x in Elements(b) ensures x in Elements(a) {
      assert x in b && x in a;
    }
  }

  // ---- Sorting and removing repetitions ----

  function Insert<T(==)>(x: T, list: seq<T>, less: (T, T) -> bool): seq<T> {
    if list == [] || !less(list[0], x) then [x] + list else [list[0]] + Insert(x, list[1..], less)
  }

  /** The library's sort, by its result. */
  function Sort<T(==)>(list: seq<T>, less: (T, T) -> bool): seq<T> {
    if list == [] then [] else Insert(list[0], Sort(list[1..], less), less)
  }

  predicate NeverFalls<T(==)>(list: seq<T>, less: (T, T) -> bool) {
    forall i, j :: 0 <= i < j < |list| ==> !less(list[j], list[i])
  }

  lemma {:induction false} InsertHolds<T(!new)>(x: T, list: seq<T>, less: (T, T) -> bool)
    requires Order(less) && NeverFalls(list, less)
    ensures NeverFalls(Insert(x, list, less), less)
    ensures Elements(Insert(x, list, less)) == {x} + Elements(list)
  {
    if list == [] || !less(list[0], x) {
      ElementsCons(x, list);
      var all := [x] + list;
      forall j | 0 < j < |all| ensures !less(all[j], x) {
        assert all[j] == list[j - 1];
      }
    } else {
      var rest := list[1..];
      InsertHolds(x, rest, less);
      var inner := Insert(x, rest, less);
      ElementsCons(list[0], inner);
      ElementsCons(list[0], rest);
      assert list == [list[0]] + rest;
      forall j | 0 <= j < |inner| ensures !less(inner[j], list[0]) {
        assert inner[j] in Elements(inner);
        if inner[j] != x {
          var i :| 0 <= i < |rest| && rest[i] == inner[j];
          assert list[i + 1] == rest[i];
        }
      }
    }
  }

  lemma {:induction false} SortHolds<T(!new)>(list: seq<T>, less: (T, T) -> bool)
    requires Order(less)
    ensures NeverFalls(Sort(list, less), less)
    ensures Elements(Sort(list, less)) == Elements(list)
  {
    if list != [] {
      SortHolds(list[1..], less);
      InsertHolds(list[0], Sort(list[1..], less), less);
      ElementsCons(list[0], list[1..]);
      assert list == [list[0]] + list[1..];
    }
  }

  lemma ElementsSnoc<T>(front: seq<T>, last: T)
    ensures Elements(front + [last]) == Elements(front) + {last}
  {
    var all := front + [last];
    assert all[|front|] == last;
    forall i | 0 <= i < |front| ensures front[i] in Elements(all) {
      assert all[i] == front[i];
    }
  }

  /** Sorting and then dropping each element equal to the one before it: the elements once each,
      in order. */
  method SortedUnique<T(==, !new)>(values: seq<T>, less: (T, T) -> bool) returns (unique: seq<T>)
    requires Order(less)
    ensures unique == SortedBy(Elements(values), less)
  {
    var sorted := Sort(values, less);
    SortHolds(values, less);
    unique := [];
    for i := 0 to |sorted|
      invariant IncreasingBy(unique, less)
      invariant Elements(unique) == Elements(sorted[..i])
      invariant unique != [] ==> i > 0 && unique[|unique| - 1] == sorted[i - 1]
      invariant unique == [] ==> i == 0
    {
      assert sorted[..i + 1] == sorted[..i] + [sorted[i]];
      ElementsSnoc(sorted[..i], sorted[i]);
      ElementsSnoc(unique, sorted[i]);
      if unique == [] || unique[|unique| - 1] != sorted[i] {
        unique := unique + [sorted[i]];
      } else {
        assert sorted[i] in Elements(unique);
      }
    }
    assert sorted[..|sorted|] == sorted;
    IncreasingIsSorted(unique, less);
  }
}
