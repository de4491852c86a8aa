// The routing table: the most profitable live versions of a lineage.
module Routing {
  import opened ArenaTypes
  import opened Runs
  import opened Sorting
  import Conservation
  import Lineages
  import RankedWork
  import Bonds
  import Safety

  // Ties are broken by comparing identifiers, which the source does on their
  // digests; the digest is a parameter.
  type Digest = VersionId -> int

  predicate Routable(s: State, v: VersionId, e: int) {
    && v in s.registry.versions
    && s.registry.versions[v].status.Live()
    && EconomyOf(s.work.economies, v, e).revenue > 0
    && ProfitOf(s.work.economies, v, e) > 0
  }

  function RoutingKey(economies: map<Period, Economy>, e: int, digest: Digest): VersionId -> Key {
    v => (ProfitOf(economies, v, e), digest(v))
  }

  function RoutableIn(s: State, e: int): VersionId -> bool {
    v => Routable(s, v, e)
  }

  function Candidates(s: State, l: LineageId, e: int): seq<VersionId> {
    Select(MembersOf(s.registry, l), RoutableIn(s, e))
  }

  function TopVersions(s: State, l: LineageId, e: int, limit: int, digest: Digest): seq<VersionId> {
    if limit <= 0 then []
    else
      var ranked := SortDown(Candidates(s, l, e), RoutingKey(s.work.economies, e, digest));
      if limit < |ranked| then ranked[..limit] else ranked
  }

  ghost predicate Separates(digest: Digest, xs: seq<VersionId>) {
    forall v, w | v in xs && w in xs && v != w :: digest(v) != digest(w)
  }

  // In a reachable state the candidates are exactly the routable versions of the lineage.
  lemma CandidatesExact(start: int, run: seq<Action>, l: LineageId, e: int)
    ensures var s := WorldAfter(start, run).state;
            && Distinct(Candidates(s, l, e))
            && forall v: VersionId :: v in Candidates(s, l, e) <==>
                 v.lineage == l && IsLive(s.registry, v) && ProfitOf(s.work.economies, v, e) > 0
  {
    hide *;
    CandidatesRoutable(start, run, l, e);
    RoutableExactly(start, run, e);
  }

  // A version is routable exactly when it is live and in profit.
  lemma RoutableExactly(start: int, run: seq<Action>, e: int)
    ensures var s := WorldAfter(start, run).state;
            forall v :: Routable(s, v, e) <==> IsLive(s.registry, v) && ProfitOf(s.work.economies, v, e) > 0
  {
    hide WorldAfter, Conservation.Solvent, Conservation.Escrowed, Conservation.Scheduled, RankedWork.Earned, ProfitOf,
      Lineages.Enrolled, Lineages.Pointed, Lineages.Chained, Lineages.OnlyLiveHold;
    Safety.ReachableSound(start, run);
    var s := WorldAfter(start, run).state;
    forall v ensures Routable(s, v, e) <==> IsLive(s.registry, v) && ProfitOf(s.work.economies, v, e) > 0 {
      Bonds.ProfitHasRevenue(s, v, e);
      RoutableProfit(s, v, e);
    }
  }

  lemma RoutableProfit(s: State, v: VersionId, e: int)
    ensures Routable(s, v, e) <==>
            IsLive(s.registry, v) && EconomyOf(s.work.economies, v, e).revenue > 0
            && ProfitOf(s.work.economies, v, e) > 0
  {
    hide EconomyOf;
  }

  lemma CandidatesRoutable(start: int, run: seq<Action>, l: LineageId, e: int)
    ensures var s := WorldAfter(start, run).state;
            && Distinct(Candidates(s, l, e))
            && forall v: VersionId :: v in Candidates(s, l, e) <==> v.lineage == l && Routable(s, v, e)
  {
    hide WorldAfter, Routable, Conservation.Conserved, Lineages.Pointed, Lineages.Chained, Lineages.OnlyLiveHold;
    var s := WorldAfter(start, run).state;
    Safety.ReachableSound(start, run);
    assert Lineages.Enrolled(s.registry);
    assert forall v | Routable(s, v, e) :: v in s.registry.versions by { RoutableRegistered(s, e); }
    SelectMembers(MembersOf(s.registry, l), RoutableIn(s, e));
    SelectDistinct(MembersOf(s.registry, l), RoutableIn(s, e));
  }

  lemma RoutableRegistered(s: State, e: int)
    ensures forall v | Routable(s, v, e) :: v in s.registry.versions
  {
  }

  ghost predicate Decreasing(xs: seq<VersionId>, key: VersionId -> Key) {
    forall i, j | 0 <= i < j < |xs| :: Higher(key(xs[i]), key(xs[j]))
  }

  // Distinct elements sorted down under separating keys strictly decrease.
  lemma SortedStrictly(xs: seq<VersionId>, key: VersionId -> Key)
    requires Distinct(xs)
    requires forall v, w | v in xs && w in xs && v != w :: key(v) != key(w)
    ensures var r := SortDown(xs, key); Distinct(r) && Decreasing(r, key) && forall v :: v in r <==> v in xs
  {
    hide SortDown, Higher, Distinct, Descending;
    var r := SortDown(xs, key);
    SortDownSorts(xs, key);
    SortDownDistinct(xs, key);
    SameMembers(r, xs);
    SeparatedDecrease(r, key);
  }

  lemma SameMembers(r: seq<VersionId>, xs: seq<VersionId>)
    requires multiset(r) == multiset(xs)
    ensures forall v :: v in r <==> v in xs
  {
    forall v ensures v in r <==> v in xs {
      assert v in multiset(r) <==> v in multiset(xs);
    }
  }

  lemma SeparatedDecrease(r: seq<VersionId>, key: VersionId -> Key)
    requires Distinct(r) && Descending(r, key)
    requires forall v, w | v in r && w in r && v != w :: key(v) != key(w)
    ensures Decreasing(r, key)
  {
    forall i, j | 0 <= i < j < |r| ensures Higher(key(r[i]), key(r[j])) {
      assert r[i] in r && r[j] in r && r[i] != r[j];
    }
  }

  lemma PrefixDecreases(xs: seq<VersionId>, n: nat, key: VersionId -> Key)
    requires Distinct(xs) && Decreasing(xs, key) && n <= |xs|
    ensures Distinct(xs[..n]) && Decreasing(xs[..n], key)
    ensures forall v | v in xs[..n] :: v in xs
  {
  }

  // Every element left out of a prefix ranks below every element in it.
  lemma PrefixDominates(xs: seq<VersionId>, n: nat, key: VersionId -> Key, v: VersionId, w: VersionId)
    requires Decreasing(xs, key) && n <= |xs|
    requires v in xs[..n] && w in xs && w !in xs[..n]
    ensures Higher(key(v), key(w))
  {
    var i :| 0 <= i < n && xs[..n][i] == v;
    assert xs == xs[..n] + xs[n..];
    var j :| 0 <= j < |xs| - n && xs[n..][j] == w;
  }

  lemma KeysSeparate(economies: map<Period, Economy>, e: int, digest: Digest, xs: seq<VersionId>)
    requires Separates(digest, xs)
    ensures forall v, w | v in xs && w in xs && v != w ::
              RoutingKey(economies, e, digest)(v) != RoutingKey(economies, e, digest)(w)
  {
    hide ProfitOf;
  }

  // More profit, or as much and the greater digest.
  ghost predicate Outranks(s: State, e: int, digest: Digest, v: VersionId, w: VersionId) {
    var p, q := ProfitOf(s.work.economies, v, e), ProfitOf(s.work.economies, w, e);
    p > q || (p == q && digest(v) > digest(w))
  }

  lemma HigherOutranks(s: State, e: int, digest: Digest, v: VersionId, w: VersionId)
    ensures var key := RoutingKey(s.work.economies, e, digest);
            Higher(key(v), key(w)) <==> Outranks(s, e, digest, v, w)
  {
    hide ProfitOf;
  }

  // The table is a true top-k: as many as asked for or available, each above the
  // next, and every live version in profit that is omitted below every listed one.
  lemma TopVersionsIsTopK(start: int, run: seq<Action>, l: LineageId, e: int, limit: int, digest: Digest)
    requires Separates(digest, Candidates(WorldAfter(start, run).state, l, e))
    ensures var s := WorldAfter(start, run).state;
            var all, top := Candidates(s, l, e), TopVersions(s, l, e, limit, digest);
            && |top| == (if limit <= 0 then 0 else if limit < |all| then limit else |all|)
            && Distinct(top)
            && (forall i, j | 0 <= i < j < |top| :: Outranks(s, e, digest, top[i], top[j]))
            && (forall v | v in top ::
                  v.lineage == l && IsLive(s.registry, v) && ProfitOf(s.work.economies, v, e) > 0)
            && (forall v, w: VersionId | v in top && w.lineage == l && IsLive(s.registry, w)
                                         && ProfitOf(s.work.economies, w, e) > 0 && w !in top ::
                  Outranks(s, e, digest, v, w))
  {
    hide WorldAfter, Routable, Candidates, SortDown, Higher, RoutingKey, ProfitOf, Decreasing, Outranks, IsLive;
    var s := WorldAfter(start, run).state;
    var key, all := RoutingKey(s.work.economies, e, digest), Candidates(s, l, e);
    CandidatesExact(start, run, l, e);
    KeysSeparate(s.work.economies, e, digest, all);
    SortedStrictly(all, key);
    var ranked, top := SortDown(all, key), TopVersions(s, l, e, limit, digest);
    assert top == ranked[..|top|];
    PrefixDecreases(ranked, |top|, key);
    forall i, j | 0 <= i < j < |top| ensures Outranks(s, e, digest, top[i], top[j]) {
      DecreasingAt(top, key, i, j);
      HigherOutranks(s, e, digest, top[i], top[j]);
    }
    forall v, w: VersionId | v in top && w.lineage == l && IsLive(s.registry, w)
                             && ProfitOf(s.work.economies, w, e) > 0 && w !in top
      ensures Outranks(s, e, digest, v, w)
    {
      PrefixDominates(ranked, |top|, key, v, w);
      HigherOutranks(s, e, digest, v, w);
    }
  }

  lemma DecreasingAt(xs: seq<VersionId>, key: VersionId -> Key, i: nat, j: nat)
    requires Decreasing(xs, key) && i < j < |xs|
    ensures Higher(key(xs[i]), key(xs[j]))
  {
  }
}
