// The invariants of the arena, held in every state a run can reach, whether its
// calls returned or raised.
module Safety {
  import opened Totals
  import opened ArenaTypes
  import opened Runs
  import opened Conservation
  import opened Lineages
  import opened RankedWork
  import opened Chronology
  import opened Provenance

  ghost predicate Sound(w: World) {
    && Conserved(w.state)
    && Governed(w)
    && Earned(w.state.work.jobs, w.state.work.economies)
    && OneJobEach(w.state.work)
    && OneUseEach(w.state.work, w.history.expenseProofs)
    && Dated(w.state.registry, w.state.work.economies, w.state.now)
    && Committed(w.state)
    && Capped(w.state.tally.dailyExpense, w.state.registry, w.state.now)
    && DaysAddUp(w.state.tally)
    && Sourced(w)
  }

  lemma NoTotals(w: Work, m: Market)
    requires w.jobs == map[] && m.jobs == map[]
    ensures OpenTotal(w) == HeldTotal(m) == 0
  {
    hide SumBy;
    SumByEmpty(OpenReward);
    SumByEmpty(HeldReward);
  }

  lemma NoHoldings(b: Bank, bonds: Bonds)
    requires b == Bank(map[], map[], 0, 0, 0, 0, 0) && bonds.amount == map[]
    ensures Holdings(b) == 0
    ensures NonNegative(b.wallets) && NonNegative(b.vaults) && NonNegative(bonds.amount)
  {
    hide Sum;
    SumEmpty<Account>();
    SumEmpty<VersionId>();
  }

  lemma BeginningConserved(w: World, start: int)
    requires w == Beginning(start)
    ensures Conserved(w.state)
  {
    hide SumBy, Sum, OpenTotal, HeldTotal, Holdings, NonNegative;
    NoTotals(w.state.work, w.state.market);
    NoHoldings(w.state.bank, w.state.bonds);
  }

  lemma BeginningSourced(w: World, start: int)
    requires w == Beginning(start)
    ensures Sourced(w)
  {
    hide SumBy, Sum;
    SumByEmpty(RevenueWeight);
    SumByEmpty(CostWeight);
    SumEmpty<VersionId>();
  }

  lemma BeginningAddsUp(w: World, start: int)
    requires w == Beginning(start)
    ensures DaysAddUp(w.state.tally) && Earned(w.state.work.jobs, w.state.work.economies)
  {
    hide SumBy;
    forall v { SumByEmpty(OnVersion(v)); }
    forall v, e ensures SumBy(map[], WonRevenue(Period(v, e))) == 0 && SumBy(map[], WonCost(Period(v, e))) == 0 {
      SumByEmpty(WonRevenue(Period(v, e)));
      SumByEmpty(WonCost(Period(v, e)));
    }
  }

  lemma BeginningGoverned(w: World, start: int)
    requires w == Beginning(start)
    ensures Governed(w)
  {
  }

  lemma BeginningUnused(w: World, start: int)
    requires w == Beginning(start)
    ensures OneJobEach(w.state.work) && OneUseEach(w.state.work, w.history.expenseProofs)
    ensures Dated(w.state.registry, w.state.work.economies, w.state.now) && Committed(w.state)
    ensures Capped(w.state.tally.dailyExpense, w.state.registry, w.state.now)
  {
  }

  lemma BeginningSound(start: int)
    ensures Sound(Beginning(start))
  {
    hide Conserved, Sourced, DaysAddUp, Earned, Governed, OneJobEach, OneUseEach, Dated, Committed, Capped, Beginning;
    var w := Beginning(start);
    BeginningConserved(w, start);
    BeginningSourced(w, start);
    BeginningAddsUp(w, start);
    BeginningGoverned(w, start);
    BeginningUnused(w, start);
  }

  lemma WorkKept(w: World, a: Action)
    requires Sound(w)
    ensures var t := NextWorld(w, a);
            && Earned(t.state.work.jobs, t.state.work.economies)
            && OneJobEach(t.state.work)
            && OneUseEach(t.state.work, t.history.expenseProofs)
  {
    hide Governed, Earned, OneJobEach, OneUseEach, Dated, Committed, Capped, DaysAddUp, Sourced, Scheduled, Solvent,
      Escrowed, Perform, Permitted, WriteOf, OrderAfter, Next, Step, DeedOf;
    var d := DeedOf(w.state, a);
    CallDeeds(w.state, a);
    EarnedKept(w.state.work, d);
    OneJobKept(w.state.work, d);
    OneUseKept(w.state.work, d, w.history.expenseProofs);
    ProofsRecorded(w, a);
  }

  lemma ProofsRecorded(w: World, a: Action)
    ensures NextWorld(w, a).history.expenseProofs == ProofsAfter(w.history.expenseProofs, DeedOf(w.state, a))
  {
    hide Step, EpochAt, OrderAfter, WriteOf;
  }

  lemma Keeps(w: World, a: Action)
    requires Sound(w)
    ensures Sound(NextWorld(w, a))
  {
    hide Conserved, Enrolled, Pointed, Chained, OnlyLiveHold, Earned, OneJobEach, OneUseEach, ProfitDated, Booked,
      Past, Committed, Capped, DaysAddUp, Sourced, Scheduled, Next, Record;
    assert Scheduled(w.state.work) by { ConservedScheduled(w.state); }
    Conserves(w.state, a);
    Governs(w, a);
    WorkKept(w, a);
    DatedKept(w.state, a);
    CommittedKept(w.state, a);
    SpendingKept(w.state, a);
    SourcedKept(w, a);
  }

  lemma ConservedScheduled(s: State)
    requires Conserved(s)
    ensures Scheduled(s.work)
  {
    hide Scheduled, Escrowed, Solvent;
  }

  lemma {:induction false} ReachableSound(start: int, run: seq<Action>)
    ensures Sound(WorldAfter(start, run))
  {
    hide Sound, NextWorld, Beginning;
    if run == [] {
      BeginningSound(start);
    } else {
      ReachableSound(start, run[..|run| - 1]);
      Keeps(WorldAfter(start, run[..|run| - 1]), run[|run| - 1]);
    }
  }
}
