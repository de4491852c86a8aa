// Stable sorting in descending order of a key.
module Sorting {

  // Keys are compared by their first part, then by their second.
  type Key = (int, int)

  predicate Higher(a: Key, b: Key) {
    a.0 > b.0 || (a.0 == b.0 && a.1 > b.1)
  }

  function Place<T>(x: T, sorted: seq<T>, key: T -> Key): (r: seq<T>)
    ensures |r| == |sorted| + 1
  {
    if sorted == [] || !Higher(key(sorted[0]), key(x)) then [x] + sorted
    else [sorted[0]] + Place(x, sorted[1..], key)
  }

  function SortDown<T>(xs: seq<T>, key: T -> Key): (r: seq<T>)
    ensures |r| == |xs|
  {
    if xs == [] then [] else Place(xs[0], SortDown(xs[1..], key), key)
  }

  function Select<T>(xs: seq<T>, p: T -> bool): seq<T> {
    if xs == [] then []
    else (if p(xs[0]) then [xs[0]] else []) + Select(xs[1..], p)
  }

  ghost predicate Descending<T>(xs: seq<T>, key: T -> Key) {
    forall i, j | 0 <= i < j < |xs| :: !Higher(key(xs[j]), key(xs[i]))
  }

  ghost predicate Distinct<T>(xs: seq<T>) {
    forall i, j | 0 <= i < j < |xs| :: xs[i] != xs[j]
  }

  lemma {:induction false} PlaceMembers<T>(x: T, sorted: seq<T>, key: T -> Key)
    ensures multiset(Place(x, sorted, key)) == multiset(sorted) + multiset{x}
  {
    if sorted == [] || !Higher(key(sorted[0]), key(x)) {
    } else {
      PlaceMembers(x, sorted[1..], key);
      assert sorted == [sorted[0]] + sorted[1..];
    }
  }

  lemma Prepend<T>(x: T, xs: seq<T>, key: T -> Key)
    requires Descending(xs, key) && forall y | y in xs :: !Higher(key(y), key(x))
    ensures Descending([x] + xs, key)
  {
  }

  lemma Rest<T>(xs: seq<T>, key: T -> Key)
    requires Descending(xs, key) && xs != []
    ensures Descending(xs[1..], key) && forall y | y in xs[1..] :: !Higher(key(y), key(xs[0]))
  {
  }

  lemma {:induction false} PlaceSorts<T>(x: T, sorted: seq<T>, key: T -> Key)
    requires Descending(sorted, key)
    ensures Descending(Place(x, sorted, key), key)
  {
    hide Descending;
    if sorted == [] {
      Prepend(x, sorted, key);
    } else {
      Rest(sorted, key);
      if Higher(key(sorted[0]), key(x)) {
        PlaceSorts(x, sorted[1..], key);
        PlaceMembers(x, sorted[1..], key);
        var placed := Place(x, sorted[1..], key);
        forall y | y in placed ensures !Higher(key(y), key(sorted[0])) {
          assert y in multiset(placed);
        }
        Prepend(sorted[0], placed, key);
      } else {
        assert sorted == [sorted[0]] + sorted[1..];
        Prepend(x, sorted, key);
      }
    }
  }

  lemma {:induction false} SortDownSorts<T>(xs: seq<T>, key: T -> Key)
    ensures Descending(SortDown(xs, key), key)
    ensures multiset(SortDown(xs, key)) == multiset(xs)
  {
    if xs != [] {
      SortDownSorts(xs[1..], key);
      PlaceSorts(xs[0], SortDown(xs[1..], key), key);
      PlaceMembers(xs[0], SortDown(xs[1..], key), key);
      assert xs == [xs[0]] + xs[1..];
    }
  }

  // ---- elements with equal keys keep their order ----

  function WithKey<T>(key: T -> Key, k: Key): T -> bool { x => key(x) == k }

  lemma SelectNone<T>(p: T -> bool)
    ensures Select([], p) == []
  {
  }

  lemma {:induction false} SelectNext<T>(xs: seq<T>, i: nat, p: T -> bool)
    requires i < |xs|
    ensures Select(xs[..i + 1], p) == Select(xs[..i], p) + if p(xs[i]) then [xs[i]] else []
  {
    if i == 0 {
      assert xs[..1] == [xs[0]] && xs[..0] == [];
    } else {
      SelectNext(xs[1..], i - 1, p);
      assert xs[..i + 1][1..] == xs[1..][..i] && xs[..i][1..] == xs[1..][..i - 1];
    }
  }

  lemma {:induction false} SelectAppend<T>(x: T, xs: seq<T>, p: T -> bool)
    ensures Select([x] + xs, p) == (if p(x) then [x] else []) + Select(xs, p)
  {
    assert ([x] + xs)[1..] == xs;
  }

  lemma {:induction false} PlaceStable<T>(x: T, sorted: seq<T>, key: T -> Key, k: Key)
    ensures Select(Place(x, sorted, key), WithKey(key, k)) == Select([x] + sorted, WithKey(key, k))
  {
    var p := WithKey(key, k);
    if sorted != [] && Higher(key(sorted[0]), key(x)) {
      var rest := sorted[1..];
      PlaceStable(x, rest, key, k);
      SelectAppend(sorted[0], Place(x, rest, key), p);
      SelectAppend(x, rest, p);
      SelectAppend(x, sorted, p);
    }
  }

  lemma {:induction false} SortDownStable<T>(xs: seq<T>, key: T -> Key, k: Key)
    ensures Select(SortDown(xs, key), WithKey(key, k)) == Select(xs, WithKey(key, k))
  {
    if xs != [] {
      SortDownStable(xs[1..], key, k);
      PlaceStable(xs[0], SortDown(xs[1..], key), key, k);
      SelectAppend(xs[0], SortDown(xs[1..], key), WithKey(key, k));
      assert xs == [xs[0]] + xs[1..];
    }
  }

  // ---- selection ----

  lemma {:induction false} SelectMembers<T>(xs: seq<T>, p: T -> bool)
    ensures forall x :: x in Select(xs, p) <==> x in xs && p(x)
  {
    if xs != [] {
      SelectMembers(xs[1..], p);
    }
  }

  lemma {:induction false} SelectDistinct<T>(xs: seq<T>, p: T -> bool)
    requires Distinct(xs)
    ensures Distinct(Select(xs, p))
  {
    if xs != [] {
      SelectDistinct(xs[1..], p);
      SelectMembers(xs[1..], p);
    }
  }

  lemma {:induction false} DistinctCounts<T>(xs: seq<T>, x: T)
    requires Distinct(xs)
    ensures multiset(xs)[x] <= 1
  {
    if xs != [] {
      DistinctCounts(xs[1..], x);
      assert xs == [xs[0]] + xs[1..];
      assert xs[0] == x ==> x !in xs[1..];
    }
  }

  lemma CountsDistinct<T>(xs: seq<T>)
    requires forall x :: multiset(xs)[x] <= 1
    ensures Distinct(xs)
  {
    forall i, j | 0 <= i < j < |xs| ensures xs[i] != xs[j] {
      assert xs == xs[..i] + [xs[i]] + xs[i + 1..j] + [xs[j]] + xs[j + 1..];
      assert multiset(xs) == multiset(xs[..i]) + multiset{xs[i]} + multiset(xs[i + 1..j]) + multiset{xs[j]}
        + multiset(xs[j + 1..]);
      assert multiset(xs)[xs[j]] <= 1;
    }
  }

  lemma SortDownDistinct<T>(xs: seq<T>, key: T -> Key)
    requires Distinct(xs)
    ensures Distinct(SortDown(xs, key))
  {
    SortDownSorts(xs, key);
    forall x ensures multiset(SortDown(xs, key))[x] <= 1 {
      DistinctCounts(xs, x);
    }
    CountsDistinct(SortDown(xs, key));
  }
}
