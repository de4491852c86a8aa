// The median of a list of profits: what it does not depend on, and what it bounds.
module Medians {

  function Insert(x: int, sorted: seq<int>): (r: seq<int>)
    ensures |r| == |sorted| + 1
  {
    if sorted == [] || x <= sorted[0] then [x] + sorted
    else [sorted[0]] + Insert(x, sorted[1..])
  }

  function Sort(xs: seq<int>): (r: seq<int>)
    ensures |r| == |xs|
  {
    if xs == [] then [] else Insert(xs[0], Sort(xs[1..]))
  }

  function Median(xs: seq<int>): int {
    var sorted := Sort(xs);
    var mid := |sorted| / 2;
    if sorted == [] then 0
    else if |sorted| % 2 == 1 then sorted[mid]
    else (sorted[mid - 1] + sorted[mid]) / 2
  }

  ghost predicate Ascending(xs: seq<int>) {
    forall i, j | 0 <= i < j < |xs| :: xs[i] <= xs[j]
  }

  ghost predicate Below(xs: seq<int>, ys: seq<int>) {
    |xs| == |ys| && forall i | 0 <= i < |xs| :: xs[i] <= ys[i]
  }

  // ---- Sort sorts ----

  lemma {:induction false} InsertSorts(x: int, sorted: seq<int>)
    requires Ascending(sorted)
    ensures Ascending(Insert(x, sorted))
    ensures multiset(Insert(x, sorted)) == multiset(sorted) + multiset{x}
  {
    hide Ascending;
    if sorted == [] {
      Lead(x, sorted);
    } else if x <= sorted[0] {
      forall y | y in sorted ensures x <= y { LeastFirst(sorted, y); }
      Lead(x, sorted);
    } else {
      var rest := sorted[1..];
      Tail(sorted);
      InsertSorts(x, rest);
      assert sorted == [sorted[0]] + rest;
      var r := Insert(x, rest);
      forall y | y in r ensures sorted[0] <= y {
        assert y in multiset(r);
        if y in rest { LeastFirst(sorted, y); }
      }
      Lead(sorted[0], r);
    }
  }

  lemma Lead(x: int, xs: seq<int>)
    requires Ascending(xs) && forall y | y in xs :: x <= y
    ensures Ascending([x] + xs)
  {
    forall i | 0 <= i < |xs| ensures x <= xs[i] {
      assert xs[i] in xs;
    }
  }

  lemma {:induction false} SortSorts(xs: seq<int>)
    ensures Ascending(Sort(xs))
    ensures multiset(Sort(xs)) == multiset(xs)
  {
    if xs != [] {
      SortSorts(xs[1..]);
      InsertSorts(xs[0], Sort(xs[1..]));
      assert xs == [xs[0]] + xs[1..];
    }
  }

  lemma LeastFirst(xs: seq<int>, x: int)
    requires Ascending(xs) && x in xs
    ensures xs[0] <= x
  {
  }

  lemma Tail(xs: seq<int>)
    requires Ascending(xs) && xs != []
    ensures Ascending(xs[1..]) && multiset(xs[1..]) == multiset(xs) - multiset{xs[0]}
  {
    assert xs == [xs[0]] + xs[1..];
  }

  lemma SameHead(xs: seq<int>, ys: seq<int>)
    requires Ascending(xs) && Ascending(ys) && multiset(xs) == multiset(ys) && xs != [] && ys != []
    ensures xs[0] == ys[0]
  {
    hide Ascending;
    assert xs[0] in multiset(ys) && ys[0] in multiset(xs);
    LeastFirst(xs, ys[0]);
    LeastFirst(ys, xs[0]);
  }

  lemma {:induction false} AscendingUnique(xs: seq<int>, ys: seq<int>)
    requires Ascending(xs) && Ascending(ys) && multiset(xs) == multiset(ys)
    ensures xs == ys
  {
    hide Ascending;
    assert |multiset(xs)| == |xs| && |multiset(ys)| == |ys|;
    if |xs| > 0 {
      SameHead(xs, ys);
      Tail(xs);
      Tail(ys);
      AscendingUnique(xs[1..], ys[1..]);
    }
  }

  // ---- the order of the epochs does not matter ----

  lemma MedianOrderIndependent(xs: seq<int>, ys: seq<int>)
    requires multiset(xs) == multiset(ys)
    ensures Median(xs) == Median(ys)
  {
    SortSorts(xs);
    SortSorts(ys);
    AscendingUnique(Sort(xs), Sort(ys));
  }

  // ---- more profit in an epoch never lowers the median ----

  lemma {:induction false} InsertMonotone(x: int, xs: seq<int>, y: int, ys: seq<int>)
    requires Ascending(xs) && Ascending(ys) && Below(xs, ys) && x <= y
    ensures Below(Insert(x, xs), Insert(y, ys))
    decreases |xs|
  {
    hide Insert, Ascending;
    if xs == [] {
      InsertAlone(x, xs);
      InsertAlone(y, ys);
    } else {
      InsertOut(x, xs);
      InsertOut(y, ys);
      Tail(xs);
      Tail(ys);
      var low, high := if x <= xs[0] then xs[0] else x, if y <= ys[0] then ys[0] else y;
      InsertMonotone(low, xs[1..], high, ys[1..]);
      BelowLed(if x <= xs[0] then x else xs[0], Insert(low, xs[1..]),
               if y <= ys[0] then y else ys[0], Insert(high, ys[1..]));
    }
  }

  lemma InsertAlone(x: int, xs: seq<int>)
    requires xs == []
    ensures Insert(x, xs) == [x]
  {
  }

  // The smaller of the two goes first, the larger is inserted into the rest.
  lemma InsertOut(x: int, xs: seq<int>)
    requires xs != [] && Ascending(xs)
    ensures Insert(x, xs) ==
            if x <= xs[0] then [x] + Insert(xs[0], xs[1..]) else [xs[0]] + Insert(x, xs[1..])
  {
    InsertHead(xs);
  }

  lemma BelowLed(x: int, xs: seq<int>, y: int, ys: seq<int>)
    requires x <= y && Below(xs, ys)
    ensures Below([x] + xs, [y] + ys)
  {
  }

  lemma InsertHead(xs: seq<int>)
    requires xs != [] && Ascending(xs)
    ensures Insert(xs[0], xs[1..]) == xs
  {
  }

  lemma {:induction false} SortMonotone(xs: seq<int>, ys: seq<int>)
    requires Below(xs, ys)
    ensures Below(Sort(xs), Sort(ys))
  {
    if xs != [] {
      SortMonotone(xs[1..], ys[1..]);
      SortSorts(xs[1..]);
      SortSorts(ys[1..]);
      InsertMonotone(xs[0], Sort(xs[1..]), ys[0], Sort(ys[1..]));
    }
  }

  lemma MedianMonotone(xs: seq<int>, ys: seq<int>)
    requires Below(xs, ys)
    ensures Median(xs) <= Median(ys)
  {
    SortMonotone(xs, ys);
  }

  // ---- at least half of the profits lie on either side ----

  function AtLeast(xs: seq<int>, m: int): nat {
    if xs == [] then 0 else (if xs[0] >= m then 1 else 0) + AtLeast(xs[1..], m)
  }

  function AtMost(xs: seq<int>, m: int): nat {
    if xs == [] then 0 else (if xs[0] <= m then 1 else 0) + AtMost(xs[1..], m)
  }

  lemma {:induction false} InsertCounts(x: int, xs: seq<int>, m: int)
    ensures AtLeast(Insert(x, xs), m) == AtLeast([x] + xs, m)
    ensures AtMost(Insert(x, xs), m) == AtMost([x] + xs, m)
  {
    assert ([x] + xs)[1..] == xs;
    if xs != [] && x > xs[0] {
      InsertCounts(x, xs[1..], m);
      assert ([x] + xs[1..])[1..] == xs[1..];
      assert ([xs[0]] + Insert(x, xs[1..]))[1..] == Insert(x, xs[1..]);
    }
  }

  lemma {:induction false} SortCounts(xs: seq<int>, m: int)
    ensures AtLeast(Sort(xs), m) == AtLeast(xs, m)
    ensures AtMost(Sort(xs), m) == AtMost(xs, m)
  {
    if xs != [] {
      SortCounts(xs[1..], m);
      InsertCounts(xs[0], Sort(xs[1..]), m);
      assert ([xs[0]] + Sort(xs[1..]))[1..] == Sort(xs[1..]);
    }
  }

  lemma {:induction false} AscendingCounts(xs: seq<int>, k: nat, m: int)
    requires Ascending(xs) && k <= |xs|
    ensures k < |xs| && m <= xs[k] ==> AtLeast(xs, m) >= |xs| - k
    ensures k > 0 && xs[k - 1] <= m ==> AtMost(xs, m) >= k
  {
    if xs != [] {
      AscendingCounts(xs[1..], if k == 0 then 0 else k - 1, m);
    }
  }

  // Half of the profits, rounded up, reach the median and half do not exceed it.
  lemma MedianBalanced(xs: seq<int>)
    requires xs != []
    ensures AtLeast(xs, Median(xs)) >= |xs| - |xs| / 2
    ensures AtMost(xs, Median(xs)) >= |xs| - |xs| / 2
  {
    hide Sort, AtLeast, AtMost, Ascending;
    var m, sorted := Median(xs), Sort(xs);
    SortSorts(xs);
    SortCounts(xs, m);
    MiddleOrdered(sorted);
    AscendingCounts(sorted, |xs| / 2, m);
    AscendingCounts(sorted, |xs| - |xs| / 2, m);
  }

  lemma MiddleOrdered(sorted: seq<int>)
    requires Ascending(sorted)
    ensures |sorted| >= 2 ==> sorted[|sorted| / 2 - 1] <= sorted[|sorted| / 2]
  {
  }

  lemma {:induction false} AtLeastWitness(xs: seq<int>, m: int) returns (k: nat)
    requires AtLeast(xs, m) > 0
    ensures k < |xs| && xs[k] >= m
  {
    if xs[0] >= m {
      k := 0;
    } else {
      k := AtLeastWitness(xs[1..], m);
      k := k + 1;
    }
  }

  lemma SortPair(x: int, y: int)
    ensures Sort([x, y]) == if x <= y then [x, y] else [y, x]
  {
    assert [x, y][1..] == [y] && [y][1..] == [];
    assert Sort([y]) == [y];
    assert Sort([x, y]) == Insert(x, [y]);
    assert Insert(x, []) == [x];
  }

  // One epoch, however good, cannot lift a full window above the better of the
  // other two, and the median is positive exactly when two epochs are.
  lemma OutlierBounded(outlier: int, y: int, z: int)
    ensures Median([outlier, y, z]) <= (if y < z then z else y)
    ensures Median([outlier, y, z]) > 0 <==> (outlier > 0 && y > 0) || (outlier > 0 && z > 0) || (y > 0 && z > 0)
  {
    SortPair(y, z);
    var low, high := if y <= z then y else z, if y <= z then z else y;
    assert [outlier, y, z][1..] == [y, z];
    assert Insert(outlier, [low, high]) == if outlier <= low then [outlier, low, high]
      else [low] + Insert(outlier, [high]) by { assert [low, high][1..] == [high]; }
  }

  // ---- the on-chain variant ----

  // What the contract returns: the middle element, the upper one of two.
  function UpperMedian(xs: seq<int>): int {
    if xs == [] then 0 else Sort(xs)[|xs| / 2]
  }

  lemma UpperMedianAgrees(xs: seq<int>)
    ensures |xs| % 2 == 1 ==> UpperMedian(xs) == Median(xs)
    ensures UpperMedian(xs) >= Median(xs)
  {
    SortSorts(xs);
  }

  lemma SingleMedian(x: int)
    ensures Median([x]) == x
  {
    assert [x][1..] == [];
    assert Sort([x]) == [x];
  }

  lemma PairMedians(x: int, y: int)
    ensures Median([x, y]) == (x + y) / 2
    ensures UpperMedian([x, y]) == if x <= y then y else x
  {
    SortPair(x, y);
  }
}
