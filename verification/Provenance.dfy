// Where the money in the vaults came from, and how much a version may spend.
module Provenance {
  import opened Totals
  import opened ArenaTypes
  import S = ArenaSpec
  import opened Runs
  import opened Conservation
  import opened Lineages
  import opened Chronology

  // Vaults hold what was given, sold and earned, less what was paid, burned and
  // ejected; taking over a vault cancels out.
  ghost predicate Sourced(w: World) {
    Sum(w.state.bank.vaults)
    == Sum(w.state.tally.capitalIn) + Sum(w.state.tally.marketRevenue)
       + RevenueTotal(w.state.work) - CostTotal(w.state.work)
       - Sum(w.state.tally.operatingSpent) - w.state.tally.burned - w.history.ejected
  }

  ghost function Unsourced(s: State): int {
    Sum(s.bank.vaults) - Sum(s.tally.capitalIn) - Sum(s.tally.marketRevenue)
    - RevenueTotal(s.work) + CostTotal(s.work) + Sum(s.tally.operatingSpent) + s.tally.burned
  }

  lemma MoneySourced(s: State, c: MoneyCall)
    ensures Unsourced(MoneyStep(s, c).state) == Unsourced(s)
  {
    hide Sum, SumBy, Get, S.BeneficiaryError, S.SignatureError, S.DebitError, S.LiveBeneficiary;
  }

  lemma RegistrySourced(s: State, c: RegistryCall)
    ensures Unsourced(RegistryStep(s, c).state) == Unsourced(s)
  {
    hide Sum, SumBy, Get, S.DeclarationError, S.SignerError, S.DebitError, S.Found, S.Enroll, S.Beat, EpochAt;
  }

  lemma SettleSourced(s: State, id: RankedJobId, v: VersionId, result: string, proof: string)
    requires Scheduled(s.work) && id in s.work.jobs && v in s.registry.versions
    ensures Unsourced(S.Settle(s, id, v, result, proof).state) == Unsourced(s)
  {
    hide Sum, SumBy, Get, S.MarkProfit, EpochAt, ProfitOf;
  }

  lemma RankedSourced(s: State, c: RankedCall)
    requires Scheduled(s.work)
    ensures Unsourced(RankedStep(s, c).state) == Unsourced(s)
  {
    hide Sum, SumBy, Get, S.Settle, Scheduled, FreshHeartbeat;
    if c.SubmitRanked? && c.job in s.work.jobs && c.version in s.registry.versions {
      SettleSourced(s, c.job, c.version, c.result, c.proof);
    }
  }

  lemma MarketSourced(s: State, c: MarketCall)
    ensures Unsourced(MarketStep(s, c).state) == Unsourced(s)
  {
    if c.AcceptMarket? || c.RefundMarket? { PaymentSourced(s, c); }
    else if c.SubmitMarket? { SubmissionSourced(s, c); }
    else { OpeningSourced(s, c); }
  }

  lemma SubmissionSourced(s: State, c: MarketCall)
    requires c.SubmitMarket?
    ensures Unsourced(MarketStep(s, c).state) == Unsourced(s)
  {
    hide Sum, SumBy, Get, Bump, PutMarketJob, S.BeneficiaryError, FreshHeartbeat, S.LiveBeneficiary, RevenueTotal,
      CostTotal;
  }

  lemma OpeningSourced(s: State, c: MarketCall)
    requires c.OpenMarket?
    ensures Unsourced(MarketStep(s, c).state) == Unsourced(s)
  {
    hide Sum, SumBy, Get, Bump, PutMarketJob, S.BeneficiaryError, S.DebitError, FreshHeartbeat, S.LiveBeneficiary,
      RevenueTotal, CostTotal;
  }

  lemma PaymentSourced(s: State, c: MarketCall)
    requires c.AcceptMarket? || c.RefundMarket?
    ensures Unsourced(MarketStep(s, c).state) == Unsourced(s)
  {
    hide Sum, SumBy, Get, PutMarketJob, S.BeneficiaryError, S.DebitError, FreshHeartbeat, S.LiveBeneficiary,
      RevenueTotal, CostTotal;
  }

  lemma SelectionSourced(s: State, c: SelectionCall)
    ensures var t := SelectionStep(s, c).state;
            Unsourced(t)
            == Unsourced(s) - (if c.EjectStale? then t.bank.commonsAvailable - s.bank.commonsAvailable else 0)
  {
    hide Sum, SumBy, Get, S.ChallengeError, S.FirstHeir, S.EpochError, S.Retire, S.Crown, S.Claim, FreshHeartbeat;
  }

  lemma SourcedKept(w: World, a: Action)
    requires Scheduled(w.state.work) && Sourced(w)
    ensures Sourced(NextWorld(w, a))
  {
    hide MoneyStep, RegistryStep, RankedStep, MarketStep, SelectionStep, Sum, SumBy, OrderAfter, WriteOf, Scheduled,
      RevenueTotal, CostTotal;
    var s := w.state;
    match a
    case OnMoney(c) => MoneySourced(s, c);
    case OnRegistry(c) => RegistrySourced(s, c);
    case OnRanked(c) => RankedSourced(s, c);
    case OnMarket(c) => MarketSourced(s, c);
    case OnSelection(c) => SelectionSourced(s, c);
  }

  // ---- spending ----

  function OnVersion(v: VersionId): (SpendDay, int) -> int {
    (d: SpendDay, n: int) => if d.version == v then n else 0
  }

  ghost predicate Capped(daily: map<SpendDay, int>, r: Registry, now: int) {
    forall d | d in daily ::
      && 0 <= daily[d] <= DAILY_EXPENSE_CAP
      && d.version in r.versions
      && DayAt(r.versions[d.version].createdAt) <= d.day <= DayAt(now)
  }

  ghost predicate DaysAddUp(t: Tally) {
    forall v :: Get(t.operatingSpent, v) == SumBy(t.dailyExpense, OnVersion(v))
  }

  lemma ExpenseAddsUp(t: Tally, v: VersionId, day: int, amount: int)
    requires DaysAddUp(t)
    ensures DaysAddUp(t.(operatingSpent := Bump(t.operatingSpent, v, amount),
                         dailyExpense := Bump(t.dailyExpense, SpendDay(v, day), amount)))
  {
    hide SumBy;
    var d := SpendDay(v, day);
    forall x ensures SumBy(Bump(t.dailyExpense, d, amount), OnVersion(x))
                     == SumBy(t.dailyExpense, OnVersion(x)) + (if x == v then amount else 0)
    {
      SumByUpdate(t.dailyExpense, OnVersion(x), d, Get(t.dailyExpense, d) + amount);
    }
  }

  lemma DayMonotone(now: int, later: int)
    requires now <= later
    ensures DayAt(now) <= DayAt(later)
  {
  }

  lemma CappedLater(daily: map<SpendDay, int>, r: Registry, now: int, t: Registry, later: int)
    requires Capped(daily, r, now) && RegistryLater(r, t) && now <= later
    ensures Capped(daily, t, later)
  {
    hide DayAt;
    DayMonotone(now, later);
  }

  lemma MoneyCapped(s: State, c: MoneyCall)
    requires Capped(s.tally.dailyExpense, s.registry, s.now) && DaysAddUp(s.tally) && Past(s.registry, s.now)
    ensures var t := MoneyStep(s, c).state; Capped(t.tally.dailyExpense, s.registry, s.now) && DaysAddUp(t.tally)
  {
    hide SumBy, DayAt, DaysAddUp, S.SignatureError;
    match c
    case SettleExpense(_, v, _, _, n, _, _, _, _) =>
      ExpenseAddsUp(s.tally, v, DayAt(s.now), n);
      if v in s.registry.versions { DayMonotone(s.registry.versions[v].createdAt, s.now); }
    case Donate(_, v, n) =>
      if v in s.registry.versions && S.LiveBeneficiary(s.registry, v).Some? {
        var b := S.LiveBeneficiary(s.registry, v).value;
        DonationAddsUp(s.tally, s.tally.(capitalIn := Bump(s.tally.capitalIn, b, n)));
      }
    case _ =>
  }

  lemma DonationAddsUp(t: Tally, u: Tally)
    requires DaysAddUp(t) && u.operatingSpent == t.operatingSpent && u.dailyExpense == t.dailyExpense
    ensures DaysAddUp(u)
  {
    hide SumBy;
  }

  lemma SpendingKept(s: State, a: Action)
    requires Enrolled(s.registry) && Pointed(s.registry) && Past(s.registry, s.now)
    requires Capped(s.tally.dailyExpense, s.registry, s.now) && DaysAddUp(s.tally)
    ensures var t := Next(s, a); Capped(t.tally.dailyExpense, t.registry, t.now) && DaysAddUp(t.tally)
  {
    hide Capped, DaysAddUp, Enrolled, Pointed, Past, Step, MoneyStep, Apply, Allowed, WriteOf, RegistryLater;
    var t := Next(s, a);
    StepFamilies(s, a);
    CallFrame(s, a);
    CallWrites(s, a);
    WriteLater(s.registry, WriteOf(s, a), s.now);
    if a.OnMoney? {
      MoneyCapped(s, a.money);
      CappedLater(t.tally.dailyExpense, s.registry, s.now, t.registry, t.now);
    } else {
      CappedLater(s.tally.dailyExpense, s.registry, s.now, t.registry, t.now);
      DonationAddsUp(s.tally, t.tally);
    }
  }

  // Within a span of days a version spends at most the daily cap for each.
  lemma {:induction false} SpanBound(daily: map<SpendDay, int>, v: VersionId, first: int, last: int)
    requires first <= last + 1
    requires forall d | d in daily && d.version == v :: first <= d.day <= last && 0 <= daily[d] <= DAILY_EXPENSE_CAP
    ensures 0 <= SumBy(daily, OnVersion(v)) <= DAILY_EXPENSE_CAP * (last - first + 1)
    decreases last - first
  {
    var d := SpendDay(v, last);
    if first == last + 1 {
      NothingSpent(daily, v);
    } else if d in daily {
      SumByPick(daily, OnVersion(v), d);
      SpanBound(daily - {d}, v, first, last - 1);
    } else {
      SpanBound(daily, v, first, last - 1);
    }
  }

  lemma {:induction false} NothingSpent(daily: map<SpendDay, int>, v: VersionId)
    requires forall d | d in daily :: d.version != v
    ensures SumBy(daily, OnVersion(v)) == 0
    decreases |daily|
  {
    if daily != map[] {
      var d :| d in daily;
      SumByPick(daily, OnVersion(v), d);
      NothingSpent(daily - {d}, v);
    }
  }

  lemma SpendingBound(s: State, v: VersionId)
    requires Capped(s.tally.dailyExpense, s.registry, s.now) && DaysAddUp(s.tally) && Past(s.registry, s.now)
    requires v in s.registry.versions
    ensures 0 <= Get(s.tally.operatingSpent, v)
            <= DAILY_EXPENSE_CAP * (DayAt(s.now) - DayAt(s.registry.versions[v].createdAt) + 1)
  {
    hide SumBy, DayAt;
    DayMonotone(s.registry.versions[v].createdAt, s.now);
    SpanBound(s.tally.dailyExpense, v, DayAt(s.registry.versions[v].createdAt), DayAt(s.now));
  }
}
