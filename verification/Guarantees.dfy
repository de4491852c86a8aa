// The promises of the protocol, for every run from a fresh arena.
module Guarantees {
  import opened Options
  import opened Totals
  import opened ArenaTypes
  import S = ArenaSpec
  import opened Runs
  import opened Conservation
  import opened Lineages
  import RankedWork
  import opened Chronology
  import opened Provenance
  import opened Safety
  import opened Challenges
  import opened Bonds
  import opened Raises
  import opened Demands
  import opened MoneyFlow
  import Convergence

  // ---- money ----

  lemma MoneyIsConserved(start: int, run: seq<Action>)
    ensures var s := WorldAfter(start, run).state;
            && Sum(s.bank.wallets) + Sum(s.bank.vaults) + s.bank.commonsAvailable + s.bank.commonsReserved
               + s.bank.escrow + s.bank.surplus == s.bank.minted
            && (forall x | x in s.bank.wallets :: s.bank.wallets[x] >= 0)
            && (forall v | v in s.bank.vaults :: s.bank.vaults[v] >= 0)
            && s.bank.commonsAvailable >= 0 && s.bank.commonsReserved >= 0
            && s.bank.escrow >= 0 && s.bank.surplus >= 0
            && s.bank.commonsReserved == SumBy(s.work.jobs, OpenReward)
            && s.bank.escrow == SumBy(s.market.jobs, HeldReward)
  {
    hide WorldAfter, SumBy, Sum, Scheduled, Escrowed, Governed, Dated, Committed, Capped, DaysAddUp, Sourced;
    ReachableSound(start, run);
    ReservesNonNegative(WorldAfter(start, run).state);
  }

  lemma VaultsHaveSources(start: int, run: seq<Action>)
    ensures var w := WorldAfter(start, run);
            Sum(w.state.bank.vaults)
            == Sum(w.state.tally.capitalIn) + Sum(w.state.tally.marketRevenue)
               + SumBy(w.state.work.economies, RevenueWeight) - SumBy(w.state.work.economies, CostWeight)
               - Sum(w.state.tally.operatingSpent) - w.state.tally.burned - w.history.ejected
  {
    hide WorldAfter, SumBy, Sum, Conserved, Governed, Dated, Committed, Capped, DaysAddUp;
    ReachableSound(start, run);
  }

  // ---- rank ----

  lemma RankIsSettledWork(start: int, run: seq<Action>, v: VersionId, e: int)
    ensures var w := WorldAfter(start, run).state.work;
            && EconomyOf(w.economies, v, e).revenue == SumBy(w.jobs, RankedWork.WonRevenue(Period(v, e)))
            && EconomyOf(w.economies, v, e).cost == SumBy(w.jobs, RankedWork.WonCost(Period(v, e)))
  {
    hide WorldAfter, SumBy, EconomyOf, Conserved, Governed, Dated, Committed, Capped, DaysAddUp, Sourced;
    ReachableSound(start, run);
  }

  lemma DeedMovesProfit(k: Work, d: RankedWork.Deed, v: VersionId, e: int)
    requires Scheduled(k) && RankedWork.Permitted(k, d)
    ensures var before, after := ProfitOf(k.economies, v, e), ProfitOf(RankedWork.Perform(k, d).economies, v, e);
            match d
            case Settle(id, winner, epoch, _, _) =>
              id in k.jobs &&
              after == before + (if v == winner && e == epoch
                                 then id.authorization.reward - id.authorization.verifiedCost else 0)
            case _ => after == before
  {
    hide SumBy, EconomyOf, RankedWork.Perform;
    DeedBooks(k, d);
    if d.Settle? {
      var a := k.jobs[d.job].authorization;
      var won := EconomyOf(k.economies, d.winner, d.epoch);
      var booked := Economy(won.revenue + a.reward, won.cost + a.verifiedCost);
      EconomyAfter(k.economies, Period(d.winner, d.epoch), booked, v, e);
    }
  }

  lemma DeedBooks(k: Work, d: RankedWork.Deed)
    requires RankedWork.Permitted(k, d)
    ensures RankedWork.Perform(k, d).economies ==
            if d.Settle? then
              var a, won := k.jobs[d.job].authorization, EconomyOf(k.economies, d.winner, d.epoch);
              k.economies[Period(d.winner, d.epoch) := Economy(won.revenue + a.reward, won.cost + a.verifiedCost)]
            else k.economies
  {
    hide SumBy, EconomyOf;
  }

  // A profit moves only when its version wins ranked work in that very epoch,
  // and then by exactly the reward less the verified cost.
  lemma OnlyWinsMoveProfit(start: int, run: seq<Action>, a: Action, v: VersionId, e: int)
    ensures var s := WorldAfter(start, run).state;
            var before, after := ProfitOf(s.work.economies, v, e), ProfitOf(Next(s, a).work.economies, v, e);
            match RankedWork.DeedOf(s, a)
            case Settle(id, winner, epoch, _, _) =>
              id in s.work.jobs && epoch == EpochAt(s.now) &&
              after == before + (if v == winner && e == epoch
                                 then id.authorization.reward - id.authorization.verifiedCost else 0)
            case _ => after == before
  {
    hide WorldAfter, Next, Step, EpochAt, RankedWork.DeedOf, Governed, Dated, Committed, Capped, DaysAddUp, Sourced,
      Solvent, Escrowed, Scheduled, ProfitOf, RankedWork.Permitted, RankedWork.Perform;
    var s := WorldAfter(start, run).state;
    ReachableSound(start, run);
    RankedWork.CallDeeds(s, a);
    DeedMovesProfit(s.work, RankedWork.DeedOf(s, a), v, e);
    DeedEpoch(s, a);
  }

  // ---- exactly once ----

  lemma NothingIsUsedTwice(start: int, run: seq<Action>)
    ensures var w := WorldAfter(start, run); var k := w.state.work;
            && (forall x, y | x in k.jobs && y in k.jobs && k.jobs[x].authorization == k.jobs[y].authorization ::
                  x == y)
            && (forall a :: a in k.used <==> exists x :: x in k.jobs && k.jobs[x].authorization == a)
            && (forall x, y | x in k.jobs && y in k.jobs && k.jobs[x].status.Settled? && k.jobs[y].status.Settled?
                              && k.jobs[x].status.proof == k.jobs[y].status.proof :: x == y)
            && RankedWork.OneUseEach(k, w.history.expenseProofs)
  {
    hide WorldAfter, Governed, Dated, Committed, Capped, DaysAddUp, Sourced, Solvent, Escrowed;
    ReachableSound(start, run);
    var w := WorldAfter(start, run);
    var k := w.state.work;
    forall x, y | x in k.jobs && y in k.jobs && k.jobs[x].authorization == k.jobs[y].authorization ensures x == y {
      assert RankedWork.Opens(k, x, x.authorization) && RankedWork.Opens(k, y, x.authorization);
    }
    forall a ensures a in k.used <==> exists x :: x in k.jobs && k.jobs[x].authorization == a {
      if a in k.used {
        var x :| RankedWork.Opens(k, x, a);
      }
      if x :| x in k.jobs && k.jobs[x].authorization == a {
        assert RankedWork.Opens(k, x, a);
      }
    }
    forall x, y | x in k.jobs && y in k.jobs && k.jobs[x].status.Settled? && k.jobs[y].status.Settled?
                  && k.jobs[x].status.proof == k.jobs[y].status.proof ensures x == y {
      assert RankedWork.ProvedBy(k, x, k.jobs[x].status.proof) && RankedWork.ProvedBy(k, y, k.jobs[x].status.proof);
    }
  }

  // ---- statuses ----

  lemma OneActivePerLineage(start: int, run: seq<Action>, v: VersionId)
    ensures var s := WorldAfter(start, run).state;
            && (v in s.registry.versions ==>
                  (s.registry.versions[v].status.Active? <==> ActiveIn(s.registry, v.lineage) == Some(v)))
            && (Get(s.bank.vaults, v) != 0 ==> v in s.registry.versions && s.registry.versions[v].status.Live())
  {
    hide WorldAfter, Conserved, Enrolled, Chained, Dated, Committed, Capped, DaysAddUp, Sourced;
    ReachableSound(start, run);
  }

  // Whatever follows, a replaced or stale version keeps its status, a closed
  // epoch its economies, and a closed job its outcome.
  lemma WhatIsFinal(start: int, run: seq<Action>, i: nat, j: nat)
    requires i <= j <= |run|
    ensures var s, t := At(start, run, i), At(start, run, j);
            && (forall v | v in s.registry.versions
                           && (s.registry.versions[v].status.Superseded? || s.registry.versions[v].status.Stale?) ::
                  v in t.registry.versions && t.registry.versions[v].status == s.registry.versions[v].status)
            && (forall v, e | e < EpochAt(s.now) ::
                  EconomyOf(t.work.economies, v, e) == EconomyOf(s.work.economies, v, e))
            && (forall id | id in s.work.jobs && !s.work.jobs[id].status.Open? ::
                  id in t.work.jobs && t.work.jobs[id] == s.work.jobs[id])
  {
    hide At, EpochAt, EconomyOf, CommitsLater;
    RunLater(start, run, i, j);
  }

  // From a replaced version the successors lead, without a cycle, to one of the
  // same lineage that is active or stale; if active, it is the beneficiary.
  lemma SuccessorsLeadToBeneficiary(start: int, run: seq<Action>, v: VersionId) returns (end: VersionId)
    requires v in WorldAfter(start, run).state.registry.versions
    requires WorldAfter(start, run).state.registry.versions[v].status.Superseded?
    ensures var r := WorldAfter(start, run).state.registry;
            && end in r.versions && end.lineage == v.lineage && end != v
            && (exists n: nat :: Leads(r, v, end, n))
            && (r.versions[end].status.Active? || r.versions[end].status.Stale?)
            && (r.versions[end].status.Active? ==> S.LiveBeneficiary(r, v) == Some(end))
  {
    hide WorldAfter, Conserved, Enrolled, Pointed, Chained, OnlyLiveHold, Dated, Committed, Capped, DaysAddUp,
      Sourced, S.LiveBeneficiary;
    ReachableSound(start, run);
    var w := WorldAfter(start, run);
    var r, order := w.state.registry, w.history.order;
    end := ChainEnd(r, order, v);
    ChainEndsLiveOrStale(r, order, v);
    var n := ChainLength(r, order, v);
    if r.versions[end].status.Active? { BeneficiaryIsChainEnd(r, order, v); }
  }

  lemma {:induction false} ChainLength(r: Registry, order: map<VersionId, int>, v: VersionId) returns (n: nat)
    requires Chained(r, order) && v in r.versions
    ensures Leads(r, v, ChainEnd(r, order, v), n)
    decreases if v in order then |order| - order[v] else 0
  {
    n := 0;
    if r.versions[v].status.Superseded? {
      n := ChainLength(r, order, r.versions[v].status.successor);
      n := n + 1;
    }
  }

  lemma NoSuccessorCycle(start: int, run: seq<Action>, v: VersionId, n: nat)
    requires n > 0
    ensures !Leads(WorldAfter(start, run).state.registry, v, v, n)
  {
    hide WorldAfter, Conserved, Enrolled, Pointed, Chained, OnlyLiveHold, Dated, Committed, Capped, DaysAddUp,
      Sourced, Leads;
    ReachableSound(start, run);
    var w := WorldAfter(start, run);
    if Leads(w.state.registry, v, v, n) {
      SuccessorsAcyclic(w.state.registry, w.history.order, v, v, n);
    }
  }

  // ---- spending ----

  lemma SpendingIsBounded(start: int, run: seq<Action>, v: VersionId)
    ensures var s := WorldAfter(start, run).state;
            && (forall d | d in s.tally.dailyExpense :: 0 <= s.tally.dailyExpense[d] <= DAILY_EXPENSE_CAP)
            && Get(s.tally.operatingSpent, v) == SumBy(s.tally.dailyExpense, OnVersion(v))
            && (v in s.registry.versions ==>
                  0 <= Get(s.tally.operatingSpent, v)
                  <= DAILY_EXPENSE_CAP * (DayAt(s.now) - DayAt(s.registry.versions[v].createdAt) + 1))
  {
    hide WorldAfter, SumBy, DayAt, Conserved, Governed, Booked, ProfitDated, Committed, Sourced;
    ReachableSound(start, run);
    var s := WorldAfter(start, run).state;
    if v in s.registry.versions { SpendingBound(s, v); }
  }

  // ---- calls that raise ----

  // A call changes the state although it raises exactly in the three cases of
  // Raises.TraceOf, and then by that case's trace on the call's own version or
  // commit. The two internal failures never happen.
  lemma RaisesLeaveFootprint(start: int, run: seq<Action>, a: Action)
    ensures var s := WorldAfter(start, run).state;
            var o, trace := Step(s, a), TraceOf(s, a);
            && (o.Raised? && o.state != s <==> !trace.NoTrace?)
            && (o.Raised? ==> o.state == Leave(s, trace) && ErrorFits(s, a, trace, o.error))
            && (trace.BondLeft? ==> trace.version !in s.registry.versions)
  {
    hide WorldAfter, Step, TraceOf, Leave, ErrorFits, Scheduled, Escrowed, Solvent, Enrolled, Pointed, Chained,
      OnlyLiveHold, Dated, Committed, Capped, DaysAddUp, Sourced;
    ReachableSound(start, run);
    RaiseLeaves(WorldAfter(start, run).state, a);
  }

  // ---- ejection ----

  // Along any run an ejection gives half of the vault, rounded down, to the first
  // member in registration order that incubates and has ever shown profit, and
  // the rest to the commons; without such a member the commons get it all, and no
  // other vault moves. It always forfeits the bond: both guards of the slashing
  // rule are idle, since the version was bonded at least four epochs ago and
  // cannot have been profitable in the last closed one.
  lemma EjectionSplits(start: int, run: seq<Action>, v: VersionId)
    requires S.EjectStale(WorldAfter(start, run).state, v).Done?
    ensures var s := WorldAfter(start, run).state;
            var t, total, members := S.EjectStale(s, v).state, Get(s.bank.vaults, v), MembersOf(s.registry, v.lineage);
            && Get(t.bank.vaults, v) == 0
            && (NobodyInLine(s, v) ==>
                  && t.bank.commonsAvailable == s.bank.commonsAvailable + total
                  && forall x | x != v :: Get(t.bank.vaults, x) == Get(s.bank.vaults, x))
            && (forall i: nat | FirstInLine(s, v, i) ::
                  && members[i] != v
                  && Get(t.bank.vaults, members[i]) == Get(s.bank.vaults, members[i]) + total / 2
                  && t.bank.commonsAvailable == s.bank.commonsAvailable + total - total / 2
                  && forall x | x != v && x != members[i] :: Get(t.bank.vaults, x) == Get(s.bank.vaults, x))
            && (NobodyInLine(s, v) || exists i: nat :: FirstInLine(s, v, i))
            && !IsLive(t.registry, v)
            && EpochAt(s.now) - S.BondEpoch(s, v) >= 2
            && !S.Profitable(s.work.economies, v, EpochAt(s.now) - 1)
            && Get(t.bonds.amount, v) == 0
            && (forall x | x != v :: Get(t.bonds.amount, x) == Get(s.bonds.amount, x))
  {
    hide WorldAfter, S.EjectStale, FirstInLine, NobodyInLine, IsLive, S.Profitable, S.BondEpoch, EpochAt, MembersOf,
      Scheduled, Escrowed, Enrolled, Pointed, Chained, OnlyLiveHold, Dated, Committed, Capped, DaysAddUp, Sourced,
      Bonded, EjectionMoves, Moved;
    ReachableSound(start, run);
    ReachableSettling(start, run);
    var s := WorldAfter(start, run).state;
    EjectionFlows(s, v);
    EjectionShares(s, S.EjectStale(s, v).state, v);
    EjectionRetires(s, v);
    StaleIsUnprofitable(s, v);
    EjectionBond(s, v);
  }

  lemma EjectionShares(s: State, t: State, v: VersionId)
    requires Moved(s, t, EjectionMoves(s, v)) && Dated(s.registry, s.work.economies, s.now)
    ensures var total, members := Get(s.bank.vaults, v), MembersOf(s.registry, v.lineage);
            && Get(t.bank.vaults, v) == 0
            && (NobodyInLine(s, v) ==>
                  && t.bank.commonsAvailable == s.bank.commonsAvailable + total
                  && forall x | x != v :: Get(t.bank.vaults, x) == Get(s.bank.vaults, x))
            && (forall i: nat | FirstInLine(s, v, i) ::
                  && members[i] != v
                  && Get(t.bank.vaults, members[i]) == Get(s.bank.vaults, members[i]) + total / 2
                  && t.bank.commonsAvailable == s.bank.commonsAvailable + total - total / 2
                  && forall x | x != v && x != members[i] :: Get(t.bank.vaults, x) == Get(s.bank.vaults, x))
            && (NobodyInLine(s, v) || exists i: nat :: FirstInLine(s, v, i))
  {
    hide Moved, Dated, Inherits, MembersOf;
    PlaceByPlace(s, t, EjectionMoves(s, v));
    HeirInLine(s, v);
    if i: nat :| FirstInLine(s, v, i) {
      OtherThanStale(s, v, i);
      forall j: nat | FirstInLine(s, v, j) ensures i == j {
        OneInLine(s, v, i, j);
      }
    }
  }

  lemma OtherThanStale(s: State, v: VersionId, i: nat)
    requires FirstInLine(s, v, i)
    ensures MembersOf(s.registry, v.lineage)[i] != v
  {
  }

  lemma EjectionRetires(s: State, v: VersionId)
    requires S.EjectStale(s, v).Done?
    ensures !IsLive(S.EjectStale(s, v).state.registry, v)
  {
    hide S.FirstHeir, S.Bequeath, S.SlashIfUnprofitable, S.StaleReference;
  }

  // ---- payment of ranked work ----

  // A settlement pays the verified cost to the recipient the job names, and to
  // nobody else, and leaves the winner with the reward less that cost.
  lemma WinnerIsPaid(
    start: int, run: seq<Action>, operator: Account, id: RankedJobId, v: VersionId, result: string, proof: string,
    valid: bool)
    requires S.SubmitRanked(WorldAfter(start, run).state, operator, id, v, result, proof, valid).Done?
    ensures var s := WorldAfter(start, run).state;
            var t, a := S.SubmitRanked(s, operator, id, v, result, proof, valid).state, id.authorization;
            && (forall x :: Get(t.bank.wallets, x)
                            == Get(s.bank.wallets, x) + if a.costRecipient == Some(x) then a.verifiedCost else 0)
            && (forall y :: Get(t.bank.vaults, y)
                            == Get(s.bank.vaults, y) + if y == v then a.reward - a.verifiedCost else 0)
            && t.bank.commonsReserved == s.bank.commonsReserved - a.reward
            && t.bank.commonsAvailable == s.bank.commonsAvailable
            && (a.verifiedCost != 0 ==> a.costRecipient.Some?)
  {
    hide WorldAfter, S.SubmitRanked, Moved, RankedMoves, Solvent, Escrowed, Enrolled, Pointed, Chained, OnlyLiveHold,
      Dated, Committed, Capped, DaysAddUp, Sourced;
    ReachableSound(start, run);
    var s := WorldAfter(start, run).state;
    var c := SubmitRanked(operator, id, v, result, proof, valid);
    RankedFlows(s, c);
    WonJob(s, operator, id, v, result, proof, valid);
    PaidOut(s, S.SubmitRanked(s, operator, id, v, result, proof, valid).state, c);
  }

  lemma WonJob(
    s: State, operator: Account, id: RankedJobId, v: VersionId, result: string, proof: string, valid: bool)
    requires S.SubmitRanked(s, operator, id, v, result, proof, valid).Done? && Scheduled(s.work)
    ensures WellPriced(id.authorization)
  {
    hide S.Settle, FreshHeartbeat, Get;
  }

  lemma PaidOut(s: State, t: State, c: RankedCall)
    requires c.SubmitRanked? && WellPriced(c.job.authorization) && Moved(s, t, RankedMoves(s, c))
    ensures var a, v := c.job.authorization, c.version;
            && (forall x :: Get(t.bank.wallets, x)
                            == Get(s.bank.wallets, x) + if a.costRecipient == Some(x) then a.verifiedCost else 0)
            && (forall y :: Get(t.bank.vaults, y)
                            == Get(s.bank.vaults, y) + if y == v then a.reward - a.verifiedCost else 0)
            && t.bank.commonsReserved == s.bank.commonsReserved - a.reward
            && t.bank.commonsAvailable == s.bank.commonsAvailable
  {
    hide Moved;
    PlaceByPlace(s, t, RankedMoves(s, c));
  }

  // ---- signatures of large expenses ----

  // What an expense demands beside signatures.
  predicate OtherwisePayable(s: State, c: MoneyCall)
    requires c.SettleExpense?
  {
    && IsLive(s.registry, c.version) && c.version.operator == c.operator
    && 0 < c.amount <= Get(s.bank.vaults, c.version)
    && c.valid && c.proof != "" && c.proof !in s.work.proofs
    && c.expenseId != "" && c.payloadHash != "" && c.recipient != ""
    && Get(s.tally.dailyExpense, SpendDay(c.version, DayAt(s.now))) + c.amount <= DAILY_EXPENSE_CAP
  }

  // As many distinct signatures as the version's threshold, and at least one, all
  // by signers of the version.
  predicate Signed(s: State, v: VersionId, sigs: seq<Account>)
    requires v in s.registry.versions
  {
    && sigs != []
    && |set x | x in sigs| >= s.registry.versions[v].threshold
    && forall x | x in sigs :: x in s.registry.versions[v].signers
  }

  // An expense is paid exactly when it is otherwise payable and either at most a
  // tenth of the daily cap or signed.
  lemma LargeExpensesAreSigned(start: int, run: seq<Action>, c: MoneyCall)
    requires c.SettleExpense?
    ensures var s := WorldAfter(start, run).state;
            MoneyStep(s, c).Done? <==>
              OtherwisePayable(s, c) && (10 * c.amount <= DAILY_EXPENSE_CAP || Signed(s, c.version, c.sigs))
  {
    hide WorldAfter, S.SettleExpense, DayAt;
    DemandsExact(start, run, OnMoney(c));
    var s := WorldAfter(start, run).state;
    assert DayAt(s.now) == s.now / 86_400 by { Days(s.now); }
  }

  lemma Days(now: int)
    ensures DayAt(now) == now / 86_400
  {
  }

  // ---- challenges ----

  // In any reachable state, public challenges within a lineage, made in any order
  // at one moment until none is left that would succeed, leave active a version
  // with the best profit among the first incumbent and all contenders.
  lemma ChallengesConverge(start: int, run: seq<Action>, challengers: seq<VersionId>, l: LineageId, e: int)
    requires Convergence.Comparable(WorldAfter(start, run).state, l, e)
    requires Convergence.Settled(Convergence.Contest(WorldAfter(start, run).state, challengers, e), l, e)
    ensures var s := WorldAfter(start, run).state;
            var t := Convergence.Contest(s, challengers, e);
            && ActiveIn(t.registry, l).Some?
            && Convergence.ActiveProfit(t, l, e) >= Convergence.ActiveProfit(s, l, e)
            && (forall v: VersionId | v.lineage == l && Convergence.Contender(s, v, e) ::
                  ProfitOf(s.work.economies, v, e) <= Convergence.ActiveProfit(t, l, e))
            && (ActiveIn(t.registry, l) == ActiveIn(s.registry, l)
                || Convergence.Contender(s, ActiveIn(t.registry, l).value, e))
            && Convergence.Successes(s, challengers, e, l) <= |Convergence.IncubatingIn(s.registry, l)|
  {
    hide WorldAfter, Convergence.Contest, Convergence.Successes, Convergence.Settled, Convergence.Contender,
      Convergence.ActiveProfit, ProfitOf, Enrolled, Pointed, Chained, OnlyLiveHold, Conserved, Dated, Committed, Capped,
      DaysAddUp, Sourced;
    var s := WorldAfter(start, run).state;
    ReachableSound(start, run);
    Convergence.ContestConverges(s, challengers, l, e);
    Convergence.ContestIsFinite(s, challengers, e, l);
  }

  // Such challenges exist in every reachable state, so the best profit can
  // always be made active, by at most as many challenges as incubating versions.
  lemma BestCanBeActive(start: int, run: seq<Action>, l: LineageId, e: int) returns (challengers: seq<VersionId>)
    requires Convergence.Comparable(WorldAfter(start, run).state, l, e)
    ensures var s := WorldAfter(start, run).state;
            var t := Convergence.Contest(s, challengers, e);
            && |challengers| <= |Convergence.IncubatingIn(s.registry, l)|
            && Convergence.Settled(t, l, e)
            && ActiveIn(t.registry, l).Some?
            && (forall v: VersionId | v.lineage == l && Convergence.Contender(s, v, e) ::
                  ProfitOf(s.work.economies, v, e) <= Convergence.ActiveProfit(t, l, e))
  {
    hide WorldAfter, Convergence.Contest, Convergence.Settled, Convergence.Contender, Convergence.IncubatingIn,
      Convergence.ActiveProfit, ProfitOf, Enrolled, Pointed, Chained, OnlyLiveHold, Conserved, Dated, Committed,
      Capped, DaysAddUp, Sourced;
    var s := WorldAfter(start, run).state;
    ReachableSound(start, run);
    challengers := Convergence.SettledExists(s, l, e);
    Convergence.ContestConverges(s, challengers, l, e);
  }

  // ---- automatic acceptance, a helper on one step of any state ----

  // A result accepted on its proof pays a live version: the beneficiary the
  // target had at the submission is its own beneficiary, so neither the fallback
  // to a version that is not live nor the one to the commons is ever taken.
  lemma AutoAcceptPaysLive(s: State, operator: Account, id: MarketJobId, result: string)
    requires S.SubmitMarket(s, operator, id, result, true).Done? && s.market.jobs[id].workVerifier != ""
    ensures var t, job := S.SubmitMarket(s, operator, id, result, true).state, s.market.jobs[id];
            && job.target in s.registry.versions
            && S.LiveBeneficiary(s.registry, job.target).Some?
            && var p := S.LiveBeneficiary(s.registry, job.target).value;
               && IsLive(s.registry, p)
               && S.LiveBeneficiary(s.registry, p) == Some(p)
               && Get(t.bank.vaults, p) == Get(s.bank.vaults, p) + job.reward
               && t.bank.commonsAvailable == s.bank.commonsAvailable
               && t.bank.escrow == s.bank.escrow - job.reward
  {
    hide Sum, FreshHeartbeat, PutMarketJob;
  }
}
