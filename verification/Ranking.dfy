// The global ranking: profit over the survival window decides it, alone.
module Ranking {
  import opened Options
  import opened Sorting
  import opened EarnOrHalt

  const N_TOP := 3
  const SURVIVAL_WINDOW := 30 * 86400

  datatype RankEntry = RankEntry(
    version: string, signal: int, earnedRevenue: int, cost: int, balance: int, rank: int, alive: bool)

  // The row of one version before ranking. The signal is the exact profit.
  function Row(receipts: seq<Receipt>, version: string, balances: map<string, int>, since: int): RankEntry {
    var earned, cost := Revenue(receipts, version, Some(since)), Cost(receipts, version, Some(since));
    RankEntry(version, earned - cost, earned, cost, if version in balances then balances[version] else 0, 0,
              earned - cost > 0)
  }

  function Rows(receipts: seq<Receipt>, versions: seq<string>, balances: map<string, int>, since: int): seq<RankEntry> {
    seq(|versions|, i requires 0 <= i < |versions| => Row(receipts, versions[i], balances, since))
  }

  function BySignal(): RankEntry -> Key {
    (r: RankEntry) => (r.signal, 0)
  }

  function Numbered(rows: seq<RankEntry>): (r: seq<RankEntry>)
    ensures |r| == |rows|
  {
    seq(|rows|, i requires 0 <= i < |rows| => rows[i].(rank := if i < N_TOP then i + 1 else rows[i].rank))
  }

  function Ranked(receipts: seq<Receipt>, versions: seq<string>, balances: map<string, int>, now: int): seq<RankEntry> {
    Numbered(SortDown(Rows(receipts, versions, balances, now - SURVIVAL_WINDOW), BySignal()))
  }

  method Rank(receipts: seq<Receipt>, versions: seq<string>, balances: map<string, int>, now: int)
    returns (rows: seq<RankEntry>)
    ensures rows == Ranked(receipts, versions, balances, now)
  {
    hide SortDown, Row;
    var since := now - SURVIVAL_WINDOW;
    rows := [];
    for i := 0 to |versions|
      invariant |rows| == i && forall k | 0 <= k < i :: rows[k] == Row(receipts, versions[k], balances, since)
    {
      rows := rows + [Row(receipts, versions[i], balances, since)];
    }
    assert rows == Rows(receipts, versions, balances, since);
    rows := SortDown(rows, BySignal());
    ghost var sorted := rows;
    var i := 0;
    while i < N_TOP && i < |rows|
      invariant 0 <= i <= |rows| == |sorted| && i <= N_TOP
      invariant forall k | 0 <= k < |rows| :: rows[k] == if k < i then sorted[k].(rank := k + 1) else sorted[k]
    {
      rows := rows[i := rows[i].(rank := i + 1)];
      i := i + 1;
    }
    assert rows == Numbered(sorted);
  }

  // ---- what the ranking promises ----

  function Unranked(r: RankEntry): RankEntry { r.(rank := 0) }

  function AllUnranked(rows: seq<RankEntry>): seq<RankEntry> {
    seq(|rows|, i requires 0 <= i < |rows| => Unranked(rows[i]))
  }

  lemma RowsUnranked(
    receipts: seq<Receipt>, versions: seq<string>, balances: map<string, int>, since: int, r: RankEntry)
    requires r in Rows(receipts, versions, balances, since)
    ensures r.rank == 0
  {
  }

  // The table is the rows in some order, numbered; none is lost, added or altered.
  lemma RankIsPermutation(receipts: seq<Receipt>, versions: seq<string>, balances: map<string, int>, now: int)
    ensures var table := Ranked(receipts, versions, balances, now);
            multiset(AllUnranked(table)) == multiset(Rows(receipts, versions, balances, now - SURVIVAL_WINDOW))
  {
    hide SortDown, Row;
    var rows := Rows(receipts, versions, balances, now - SURVIVAL_WINDOW);
    var sorted := SortDown(rows, BySignal());
    SortDownSorts(rows, BySignal());
    forall i | 0 <= i < |sorted| ensures sorted[i].rank == 0 {
      assert sorted[i] in multiset(rows);
      RowsUnranked(receipts, versions, balances, now - SURVIVAL_WINDOW, sorted[i]);
    }
    assert AllUnranked(Numbered(sorted)) == sorted;
  }

  // Revenue less cost over the last 30 days.
  function WindowProfit(receipts: seq<Receipt>, version: string, now: int): int {
    Revenue(receipts, version, Some(now - 2_592_000)) - Cost(receipts, version, Some(now - 2_592_000))
  }

  // Every entry shows the windowed revenue, cost and profit of a listed version.
  lemma EntriesExact(receipts: seq<Receipt>, versions: seq<string>, balances: map<string, int>, now: int, i: nat)
    requires i < |versions|
    ensures var table := Ranked(receipts, versions, balances, now);
            && |table| == |versions|
            && var r := table[i];
               && r.version in versions
               && r.signal == WindowProfit(receipts, r.version, now)
               && r.earnedRevenue == Revenue(receipts, r.version, Some(now - 2_592_000))
               && r.cost == Cost(receipts, r.version, Some(now - 2_592_000))
               && r.balance == (if r.version in balances then balances[r.version] else 0)
               && (r.alive <==> WindowProfit(receipts, r.version, now) > 0)
  {
    hide SortDown, Revenue, Cost;
    var rows := Rows(receipts, versions, balances, now - SURVIVAL_WINDOW);
    var sorted := SortDown(rows, BySignal());
    SortDownSorts(rows, BySignal());
    assert sorted[i] in multiset(rows);
    var k :| 0 <= k < |rows| && rows[k] == sorted[i];
    assert versions[k] in versions;
  }

  // Profit never increases down the table, and ranks 1 to 3 are its first rows.
  lemma RankOrders(receipts: seq<Receipt>, versions: seq<string>, balances: map<string, int>, now: int)
    ensures var table := Ranked(receipts, versions, balances, now);
            && |table| == |versions|
            && (forall i, j | 0 <= i < j < |table| ::
                  WindowProfit(receipts, table[i].version, now) >= WindowProfit(receipts, table[j].version, now))
            && (forall i | 0 <= i < |table| :: table[i].rank == if i < 3 then i + 1 else 0)
  {
    hide Ranked, WindowProfit;
    SignalsOrder(receipts, versions, balances, now);
    var table := Ranked(receipts, versions, balances, now);
    forall i | 0 <= i < |table| ensures table[i].signal == WindowProfit(receipts, table[i].version, now) {
      EntriesExact(receipts, versions, balances, now, i);
    }
  }

  lemma SignalsOrder(receipts: seq<Receipt>, versions: seq<string>, balances: map<string, int>, now: int)
    ensures var table := Ranked(receipts, versions, balances, now);
            && |table| == |versions|
            && (forall i, j | 0 <= i < j < |table| :: table[i].signal >= table[j].signal)
            && (forall i | 0 <= i < |table| :: table[i].rank == if i < N_TOP then i + 1 else 0)
  {
    hide SortDown, Row;
    var rows := Rows(receipts, versions, balances, now - SURVIVAL_WINDOW);
    var sorted := SortDown(rows, BySignal());
    SortDownSorts(rows, BySignal());
    forall i | 0 <= i < |sorted| ensures sorted[i].rank == 0 {
      assert sorted[i] in multiset(rows);
      RowsUnranked(receipts, versions, balances, now - SURVIVAL_WINDOW, sorted[i]);
    }
    forall i, j | 0 <= i < j < |sorted| ensures sorted[i].signal >= sorted[j].signal {
      assert !Higher(BySignal()(sorted[j]), BySignal()(sorted[i]));
    }
  }

  // The names of the entries down the table, and those with a given profit.
  function Names(rows: seq<RankEntry>): (r: seq<string>)
    ensures |r| == |rows|
  {
    seq(|rows|, i requires 0 <= i < |rows| => rows[i].version)
  }

  function Earning(receipts: seq<Receipt>, now: int, profit: int): string -> bool {
    version => WindowProfit(receipts, version, now) == profit
  }

  lemma {:induction false} SelectNames(rows: seq<RankEntry>, p: RankEntry -> bool, q: string -> bool)
    requires forall r | r in rows :: p(r) <==> q(r.version)
    ensures Names(Select(rows, p)) == Select(Names(rows), q)
  {
    if rows == [] {
    } else {
      SelectNames(rows[1..], p, q);
      assert Names(rows)[1..] == Names(rows[1..]);
      assert Names([rows[0]]) == [rows[0].version];
      assert rows[0] in rows;
      var rest := Select(rows[1..], p);
      assert Names([rows[0]] + rest) == [rows[0].version] + Names(rest);
    }
  }

  lemma RowsNamed(receipts: seq<Receipt>, versions: seq<string>, balances: map<string, int>, now: int)
    ensures var rows := Rows(receipts, versions, balances, now - SURVIVAL_WINDOW);
            Names(rows) == versions && forall r | r in rows :: r.signal == WindowProfit(receipts, r.version, now)
  {
    hide Revenue, Cost;
  }

  lemma {:induction false} RanksNameNobody(rows: seq<RankEntry>)
    ensures Names(Numbered(rows)) == Names(rows)
  {
  }

  // Versions with equal profit keep the order they were given in.
  lemma TiesKeepOrder(receipts: seq<Receipt>, versions: seq<string>, balances: map<string, int>, now: int, profit: int)
    ensures Select(Names(Ranked(receipts, versions, balances, now)), Earning(receipts, now, profit))
            == Select(versions, Earning(receipts, now, profit))
  {
    hide SortDown, Row, WindowProfit, Rows, Select;
    var rows := Rows(receipts, versions, balances, now - SURVIVAL_WINDOW);
    var sorted := SortDown(rows, BySignal());
    SortDownStable(rows, BySignal(), (profit, 0));
    SortDownSorts(rows, BySignal());
    RowsNamed(receipts, versions, balances, now);
    RanksNameNobody(sorted);
    assert forall r | r in sorted :: r in multiset(rows);
    SelectNames(rows, WithKey(BySignal(), (profit, 0)), Earning(receipts, now, profit));
    SelectNames(sorted, WithKey(BySignal(), (profit, 0)), Earning(receipts, now, profit));
  }

  // Every entry is that of a listed version; whether it is alive is the sign of
  // its windowed profit, whatever its rank and whatever the balances.
  lemma AliveIsProfit(receipts: seq<Receipt>, versions: seq<string>, balances: map<string, int>, now: int, i: nat)
    requires i < |versions|
    ensures var table := Ranked(receipts, versions, balances, now);
            var r := table[i];
            var since := Some(now - SURVIVAL_WINDOW);
            && |table| == |versions|
            && r.version in versions
            && r.alive == (Revenue(receipts, r.version, since) > Cost(receipts, r.version, since))
  {
    hide Ranked, Revenue, Cost;
    EntriesExact(receipts, versions, balances, now, i);
  }

  // Deposits buy no rank: other balances leave every entry but its balance as it was.
  function WithoutBalance(r: RankEntry): RankEntry { r.(balance := 0) }

  lemma {:induction false} PlaceIgnoresBalance(x: RankEntry, y: RankEntry, xs: seq<RankEntry>, ys: seq<RankEntry>)
    requires WithoutBalance(x) == WithoutBalance(y) && SameButBalance(xs, ys)
    ensures SameButBalance(Place(x, xs, BySignal()), Place(y, ys, BySignal()))
  {
    if xs != [] && Higher(BySignal()(xs[0]), BySignal()(x)) {
      PlaceIgnoresBalance(x, y, xs[1..], ys[1..]);
    }
  }

  ghost predicate SameButBalance(xs: seq<RankEntry>, ys: seq<RankEntry>) {
    |xs| == |ys| && forall i | 0 <= i < |xs| :: WithoutBalance(xs[i]) == WithoutBalance(ys[i])
  }

  lemma {:induction false} SortIgnoresBalance(xs: seq<RankEntry>, ys: seq<RankEntry>)
    requires SameButBalance(xs, ys)
    ensures SameButBalance(SortDown(xs, BySignal()), SortDown(ys, BySignal()))
  {
    if xs != [] {
      SortIgnoresBalance(xs[1..], ys[1..]);
      PlaceIgnoresBalance(xs[0], ys[0], SortDown(xs[1..], BySignal()), SortDown(ys[1..], BySignal()));
    }
  }

  lemma BalancesBuyNoRank(
    receipts: seq<Receipt>, versions: seq<string>, balances: map<string, int>, others: map<string, int>, now: int)
    ensures SameButBalance(Ranked(receipts, versions, balances, now), Ranked(receipts, versions, others, now))
  {
    hide SortDown;
    var since := now - SURVIVAL_WINDOW;
    SortIgnoresBalance(Rows(receipts, versions, balances, since), Rows(receipts, versions, others, since));
  }

  // ---- selections ----

  function InTop(): RankEntry -> bool {
    (r: RankEntry) => r.rank >= 1
  }

  function TopN(rows: seq<RankEntry>): seq<RankEntry> {
    Select(rows, InTop())
  }

  function IsAlive(): RankEntry -> bool {
    (r: RankEntry) => r.alive
  }

  function AliveVersions(rows: seq<RankEntry>): seq<RankEntry> {
    Select(rows, IsAlive())
  }

  lemma {:induction false} SelectSplit<T>(xs: seq<T>, n: nat, p: T -> bool)
    requires n <= |xs|
    requires forall i | 0 <= i < |xs| :: p(xs[i]) <==> i < n
    ensures Select(xs, p) == xs[..n]
  {
    if xs != [] {
      SelectSplit(xs[1..], if n == 0 then 0 else n - 1, p);
    }
  }

  // The routed versions are exactly the first three rows of the table.
  lemma TopNIsPrefix(receipts: seq<Receipt>, versions: seq<string>, balances: map<string, int>, now: int)
    ensures var table := Ranked(receipts, versions, balances, now);
            TopN(table) == table[..if |table| < 3 then |table| else 3]
  {
    hide Ranked;
    var table := Ranked(receipts, versions, balances, now);
    SignalsOrder(receipts, versions, balances, now);
    SelectSplit(table, if |table| < N_TOP then |table| else N_TOP, InTop());
  }

  // The surviving versions are exactly those in profit over the window, ranked or not.
  lemma AliveVersionsExact(
    receipts: seq<Receipt>, versions: seq<string>, balances: map<string, int>, now: int, r: RankEntry)
    requires r in Ranked(receipts, versions, balances, now)
    ensures var since := Some(now - SURVIVAL_WINDOW);
            r in AliveVersions(Ranked(receipts, versions, balances, now)) <==>
              Revenue(receipts, r.version, since) > Cost(receipts, r.version, since)
  {
    hide Ranked, Revenue, Cost;
    var table := Ranked(receipts, versions, balances, now);
    SignalsOrder(receipts, versions, balances, now);
    var i :| 0 <= i < |table| && table[i] == r;
    AliveIsProfit(receipts, versions, balances, now, i);
    SelectMembers(table, IsAlive());
  }
}
