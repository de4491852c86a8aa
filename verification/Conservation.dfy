// No call creates, loses or overdraws money, and both reserves are exactly the
// rewards of the jobs still waiting for them.
module Conservation {
  import opened Options
  import opened Totals
  import opened ArenaTypes
  import S = ArenaSpec
  import opened Runs

  ghost function Holdings(b: Bank): int {
    Sum(b.wallets) + Sum(b.vaults) + b.commonsAvailable + b.commonsReserved + b.escrow + b.surplus
  }

  ghost predicate NonNegative<K>(m: map<K, int>) {
    forall k | k in m :: m[k] >= 0
  }

  ghost predicate WellPriced(a: Authorization) {
    a.reward > 0 && a.verifiedCost >= 0 && (a.verifiedCost > 0 ==> a.costRecipient.Some?)
  }

  // Every posted job opens a scheduled authorization under an identifier the
  // nonce has already passed.
  ghost predicate Scheduled(w: Work) {
    && (forall a | a in w.authorizations :: WellPriced(a))
    && (forall id | id in w.jobs ::
          && id.authorization == w.jobs[id].authorization
          && id.authorization in w.authorizations
          && id.nonce < w.nonce)
  }

  ghost predicate Escrowed(m: Market, r: Registry) {
    forall id | id in m.jobs ::
      && m.jobs[id].reward > 0
      && id.nonce < m.nonce
      && m.jobs[id].target in r.versions
      && (m.jobs[id].status.Submitted? ==> m.jobs[id].status.performer in r.versions)
  }

  ghost predicate Solvent(s: State) {
    && Holdings(s.bank) == s.bank.minted
    && NonNegative(s.bank.wallets)
    && NonNegative(s.bank.vaults)
    && NonNegative(s.bonds.amount)
    && s.bank.commonsAvailable >= 0
    && s.bank.surplus >= 0
    && s.bank.commonsReserved == OpenTotal(s.work)
    && s.bank.escrow == HeldTotal(s.market)
  }

  ghost predicate Conserved(s: State) {
    Scheduled(s.work) && Escrowed(s.market, s.registry) && Solvent(s)
  }

  lemma ReservesNonNegative(s: State)
    requires Conserved(s)
    ensures s.bank.commonsReserved >= 0 && s.bank.escrow >= 0
  {
    SumByNonNegative(s.work.jobs, OpenReward);
    SumByNonNegative(s.market.jobs, HeldReward);
  }

  lemma SettleScheduled(s: State, id: RankedJobId, v: VersionId, result: string, proof: string)
    requires Scheduled(s.work) && Escrowed(s.market, s.registry)
    requires id in s.work.jobs && s.work.jobs[id].status.Open? && v in s.registry.versions
    ensures var o := S.Settle(s, id, v, result, proof);
            o.Done? && Scheduled(o.state.work) && Escrowed(o.state.market, o.state.registry)
  {
    hide SumBy, Sum, EpochAt, ProfitOf, EconomyOf, Bump, OpenTotal, RevenueTotal, CostTotal;
  }

  lemma SettleSolvent(s: State, id: RankedJobId, v: VersionId, result: string, proof: string)
    requires Solvent(s) && id in s.work.jobs && s.work.jobs[id].status.Open? && v in s.registry.versions
    requires WellPriced(s.work.jobs[id].authorization)
    requires Get(s.bank.vaults, v) >= s.work.jobs[id].authorization.verifiedCost
    ensures Solvent(S.Settle(s, id, v, result, proof).state)
  {
    hide SumBy, Sum, EpochAt, ProfitOf, EconomyOf, S.MarkProfit;
  }

  lemma SettleConserves(s: State, id: RankedJobId, v: VersionId, result: string, proof: string)
    requires Conserved(s) && id in s.work.jobs && s.work.jobs[id].status.Open? && v in s.registry.versions
    requires Get(s.bank.vaults, v) >= s.work.jobs[id].authorization.verifiedCost
    ensures Conserved(S.Settle(s, id, v, result, proof).state)
    ensures S.Settle(s, id, v, result, proof).Done?
  {
    hide Solvent, Escrowed, S.Settle;
    SettleScheduled(s, id, v, result, proof);
    SettleSolvent(s, id, v, result, proof);
  }

  lemma MoneyConserves(s: State, c: MoneyCall)
    requires Conserved(s)
    ensures Conserved(MoneyStep(s, c).state)
  {
    hide SumBy, S.MedianProfit, S.Utf8Length, S.FirstHeir, S.DeclarationError, S.SignerError, S.SignatureError;
  }

  lemma RegistryConserves(s: State, c: RegistryCall)
    requires Conserved(s)
    ensures Conserved(RegistryStep(s, c).state)
  {
    hide SumBy, Sum, S.DeclarationError, S.SignerError, S.Profitable, EpochAt, MembersOf;
  }

  lemma RankedConserves(s: State, c: RankedCall)
    requires Conserved(s)
    ensures Conserved(RankedStep(s, c).state)
  {
    hide SumBy, S.MedianProfit, S.Utf8Length, S.FirstHeir, S.DeclarationError, S.SignerError, S.SignatureError;
    match c
    case SubmitRanked(o, j, v, r, p, ok) => if RankedStep(s, c).state != s { SettleConserves(s, j, v, r, p); }
    case _ =>
  }

  lemma PayMarketConserves(s: State, id: MarketJobId, job: MarketJob, b: Option<VersionId>)
    requires Conserved(s)
    requires id in s.market.jobs && HeldReward(id, s.market.jobs[id]) == job.reward && !job.status.Submitted?
    requires HeldReward(id, job) == 0 && job.reward > 0 && job.target in s.registry.versions
    ensures Conserved(S.PayMarket(s, id, job, b))
  {
    hide SumBy;
  }

  lemma SubmitMarketConserves(s: State, operator: Account, id: MarketJobId, result: string, valid: bool)
    requires Conserved(s)
    ensures Conserved(S.SubmitMarket(s, operator, id, result, valid).state)
  {
    hide SumBy, S.PayMarket;
    if id in s.market.jobs && s.market.jobs[id].status.Offered? {
      var job := s.market.jobs[id];
      if S.BeneficiaryError(s.registry, job.target).None? {
        var performer := S.LiveBeneficiary(s.registry, job.target).value;
        if performer in s.registry.versions {
          PayMarketConserves(s, id, job.(status := Accepted(performer, result)),
                             S.OrElse(S.LiveBeneficiary(s.registry, performer), performer));
        }
      }
    }
  }

  lemma AcceptMarketConserves(s: State, buyer: Account, id: MarketJobId)
    requires Conserved(s)
    ensures Conserved(S.AcceptMarket(s, buyer, id).state)
  {
    hide SumBy, S.PayMarket;
    if id in s.market.jobs && s.market.jobs[id].status.Submitted? {
      var job := s.market.jobs[id];
      PayMarketConserves(s, id, job.(status := Accepted(job.status.performer, job.status.resultHash)),
                         S.LiveBeneficiary(s.registry, job.status.performer));
    }
  }

  lemma PromoteConserves(s: State, incumbent: VersionId, challenger: VersionId)
    requires Conserved(s)
    requires incumbent in s.registry.versions && challenger in s.registry.versions
    ensures Conserved(S.Promote(s, incumbent, challenger))
  {
    hide SumBy;
  }

  lemma SupersedeConserves(s: State, challenger: VersionId, epoch: int, useMedian: bool)
    requires Conserved(s)
    ensures Conserved(S.ExecuteSupersede(s, challenger, epoch, useMedian).state)
  {
    hide SumBy, S.Promote, S.Metric;
    if S.ChallengeError(s, challenger, epoch, useMedian).None? {
      PromoteConserves(s, ActiveIn(s.registry, challenger.lineage).value, challenger);
    }
  }

  lemma MarketConserves(s: State, c: MarketCall)
    requires Conserved(s)
    ensures Conserved(MarketStep(s, c).state)
  {
    hide SumBy;
    match c
    case OpenMarket(b, t, h, n, d, w) =>
    case SubmitMarket(o, id, r, ok) => SubmitMarketConserves(s, o, id, r, ok);
    case AcceptMarket(b, id) => AcceptMarketConserves(s, b, id);
    case RefundMarket(b, id) =>
  }

  lemma SelectionConserves(s: State, c: SelectionCall)
    requires Conserved(s)
    ensures Conserved(SelectionStep(s, c).state)
  {
    hide SumBy, Sum, S.FirstHeir, S.ExecuteSupersede, S.Profitable, S.EpochError, EpochAt, FreshHeartbeat, MembersOf;
    match c
    case Supersede(v, e) => SupersedeConserves(s, v, e, false);
    case CommitSupersede(_, _, _) =>
    case RevealSupersede(v, e, salt) =>
      var consumed := s.(commits := s.commits.(revealed := s.commits.revealed + {CommitId(v, e, salt)}));
      SupersedeConserves(consumed, v, e, true);
    case EjectStale(_) =>
    case ClaimVacancy(_, _) =>
  }

  lemma Conserves(s: State, a: Action)
    requires Conserved(s)
    ensures Conserved(Next(s, a))
  {
    hide Conserved, MoneyStep, RegistryStep, RankedStep, MarketStep, SelectionStep;
    match a
    case OnMoney(c) => MoneyConserves(s, c);
    case OnRegistry(c) => RegistryConserves(s, c);
    case OnRanked(c) => RankedConserves(s, c);
    case OnMarket(c) => MarketConserves(s, c);
    case OnSelection(c) => SelectionConserves(s, c);
  }
}
