// The contract's median: a fixed window filled in place and insertion-sorted.
module ContractMedian {
  import opened ArenaTypes
  import opened Medians
  import S = ArenaSpec

  // Moving an element one slot up and the key into its place is a swap.
  lemma ShiftKeeps(s: seq<int>, j: nat, key: int)
    requires j + 1 < |s|
    ensures multiset(s[j + 1 := s[j]][j := key]) == multiset(s[j + 1 := key])
  {
  }

  // The first i elements are in order, and so are those around the gap left
  // above slot j, every one past the gap exceeding the key.
  ghost predicate Gapped(s: seq<int>, i: int, j: int, key: int) {
    && -1 <= j < i < |s|
    && (forall a, b | 0 <= a < b <= i && a != j + 1 && b != j + 1 :: s[a] <= s[b])
    && (forall b | j + 1 < b <= i :: key < s[b])
  }

  lemma Shift(s: seq<int>, i: int, j: int, key: int)
    requires Gapped(s, i, j, key) && j >= 0 && s[j] > key
    ensures Gapped(s[j + 1 := s[j]], i, j - 1, key)
  {
  }

  lemma Close(s: seq<int>, i: int, j: int, key: int)
    requires Gapped(s, i, j, key) && (j < 0 || s[j] <= key)
    ensures Ascending(s[j + 1 := key][..i + 1])
  {
    var r := s[j + 1 := key];
    forall a, b | 0 <= a < b <= i ensures r[a] <= r[b] {
      if j >= 0 && a < j {
        assert s[a] <= s[j];
      }
    }
  }

  // The body of the outer loop: element i slides down to its place.
  method SlideDown(profits: array<int>, count: nat, i: nat)
    requires 0 < i < count <= profits.Length && Ascending(profits[..count][..i])
    modifies profits
    ensures Ascending(profits[..count][..i + 1])
    ensures multiset(profits[..count]) == multiset(old(profits[..count]))
  {
    hide Ascending, Gapped;
    ghost var s := profits[..count];
    var key := profits[i];
    var j := i - 1;
    GapAtTop(s, i);
    while j >= 0 && profits[j] > key
      invariant -1 <= j < i && s == profits[..count]
      invariant Gapped(s, i, j, key)
      invariant multiset(s[j + 1 := key]) == multiset(old(profits[..count]))
    {
      Shift(s, i, j, key);
      ShiftKeeps(s, j, key);
      profits[j + 1] := profits[j];
      s := s[j + 1 := s[j]];
      j := j - 1;
    }
    Close(s, i, j, key);
    profits[j + 1] := key;
    assert profits[..count] == s[j + 1 := key];
  }

  method InsertionSort(profits: array<int>, count: nat)
    requires 0 < count <= profits.Length
    modifies profits
    ensures profits[..count] == Sort(old(profits[..count]))
  {
    hide Ascending, Sort;
    ghost var before := profits[..count];
    SingletonAscending(before);
    for i := 1 to count
      invariant multiset(profits[..count]) == multiset(before)
      invariant Ascending(profits[..count][..i])
    {
      SlideDown(profits, count, i);
    }
    SortSorts(before);
    assert profits[..count][..count] == profits[..count];
    AscendingUnique(profits[..count], Sort(before));
  }

  lemma SingletonAscending(s: seq<int>)
    requires |s| >= 1
    ensures Ascending(s[..1])
  {
  }

  lemma GapAtTop(s: seq<int>, i: nat)
    requires 0 < i < |s| && Ascending(s[..i])
    ensures Gapped(s, i, i - 1, s[i])
    ensures s[i := s[i]] == s
  {
    forall a, b | 0 <= a < b < i ensures s[a] <= s[b] {
      assert s[..i][a] <= s[..i][b];
    }
  }

  method MedianProfit(economies: map<Period, Economy>, v: VersionId, end: nat) returns (median: int)
    ensures median == UpperMedian(S.Profits(economies, v, end))
  {
    hide ProfitOf, Sort, S.Profits;
    ghost var window := S.Profits(economies, v, end);
    S.ProfitsWindow(economies, v, end);
    var profits := new int[PROFIT_WINDOW_EPOCHS](_ => 0);
    var count := 0;
    for i := 0 to PROFIT_WINDOW_EPOCHS
      invariant count == i <= |window|
      invariant forall k | 0 <= k < count :: profits[k] == window[k]
    {
      if end < i { break; }
      profits[count] := ProfitOf(economies, v, end - i);
      count := count + 1;
    }
    assert profits[..count] == window;
    if count == 0 { return 0; }
    InsertionSort(profits, count);
    assert profits[count / 2] == profits[..count][count / 2];
    return profits[count / 2];
  }

  // The two implementations agree except on the two-epoch window, where the
  // contract takes the better epoch and the model the floor of the mean.
  lemma MediansAgree(economies: map<Period, Economy>, v: VersionId, end: nat)
    ensures var contract, modelled := UpperMedian(S.Profits(economies, v, end)), S.MedianProfit(economies, v, end);
            && contract >= modelled
            && (contract == modelled <==> end != 1 || ProfitOf(economies, v, 0) == ProfitOf(economies, v, 1))
  {
    hide ProfitOf, Sort, S.Profits;
    S.ProfitsWindow(economies, v, end);
    UpperMedianAgrees(S.Profits(economies, v, end));
    if end == 1 {
      PairMedians(ProfitOf(economies, v, 1), ProfitOf(economies, v, 0));
    }
  }
}
