// Rank is what the settled ranked jobs add up to, and nothing is settled twice.
module RankedWork {
  import opened Totals
  import opened ArenaTypes
  import S = ArenaSpec
  import opened Runs
  import Sorting
  import opened Conservation

  // Every change a call makes to the ranked work is one of five deeds.
  datatype Deed =
    | Nothing
    | Schedule(authorization: Authorization)
    | Post(authorization: Authorization)
    | Settle(job: RankedJobId, winner: VersionId, epoch: int, result: string, proof: string)
    | Expire(job: RankedJobId)
    | Prove(proof: string)

  ghost predicate Permitted(w: Work, d: Deed) {
    match d
    case Nothing => true
    case Schedule(a) => WellPriced(a)
    case Post(a) => a in w.authorizations && a !in w.used && RankedJobId(a, w.nonce) !in w.jobs
    case Settle(id, _, _, _, proof) => id in w.jobs && w.jobs[id].status.Open? && proof !in w.proofs
    case Expire(id) => id in w.jobs && w.jobs[id].status.Open?
    case Prove(proof) => proof !in w.proofs
  }

  ghost function Perform(w: Work, d: Deed): Work
    requires Permitted(w, d)
  {
    match d
    case Nothing => w
    case Schedule(a) => w.(authorizations := w.authorizations + {a})
    case Post(a) =>
      PutRankedJob(w, RankedJobId(a, w.nonce), RankedJob(a, Open)).(used := w.used + {a}, nonce := w.nonce + 1)
    case Settle(id, v, e, result, proof) =>
      var a := w.jobs[id].authorization;
      BookEconomy(S.CloseJob(w, id, Settled(v, e, result, proof)).(proofs := w.proofs + {proof}),
                  v, e, a.reward, a.verifiedCost)
    case Expire(id) => S.CloseJob(w, id, Expired)
    case Prove(proof) => w.(proofs := w.proofs + {proof})
  }

  // The deed of a call; a call that raises does none.
  ghost function DeedOf(s: State, a: Action): Deed {
    if Step(s, a).Raised? then Nothing
    else
      match a
      case OnRanked(AuthorizeJob(x, vs)) => Schedule(x.(verifierSet := if vs == [] then [x.verifier] else vs))
      case OnRanked(CreateRankedJob(x)) => Post(x)
      case OnRanked(SubmitRanked(_, id, v, result, proof, _)) => Settle(id, v, EpochAt(s.now), result, proof)
      case OnRanked(ExpireRanked(id)) => Expire(id)
      case OnMoney(SettleExpense(_, _, _, _, _, _, proof, _, _)) => Prove(proof)
      case _ => Nothing
  }

  lemma RankedCallDeeds(s: State, c: RankedCall)
    requires Scheduled(s.work)
    ensures Permitted(s.work, DeedOf(s, OnRanked(c)))
    ensures RankedStep(s, c).state.work == Perform(s.work, DeedOf(s, OnRanked(c)))
  {
    hide SumBy, S.MarkProfit, Bump, Get, FreshHeartbeat;
  }

  lemma MoneyCallDeeds(s: State, c: MoneyCall)
    ensures Permitted(s.work, DeedOf(s, OnMoney(c)))
    ensures MoneyStep(s, c).state.work == Perform(s.work, DeedOf(s, OnMoney(c)))
  {
    hide S.BeneficiaryError, S.SignatureError, S.DebitError, S.LiveBeneficiary, Bump, Get;
  }

  lemma CallDeeds(s: State, a: Action)
    requires Scheduled(s.work)
    ensures Permitted(s.work, DeedOf(s, a))
    ensures Next(s, a).work == Perform(s.work, DeedOf(s, a))
  {
    hide SumBy, Scheduled, MoneyStep, RegistryStep, RankedStep, MarketStep, SelectionStep, S.CloseJob, BookEconomy,
      PutRankedJob;
    match a
    case OnMoney(c) => MoneyCallDeeds(s, c);
    case OnRegistry(c) => RegistryFrame(s, c);
    case OnRanked(c) => RankedCallDeeds(s, c);
    case OnMarket(c) => MarketFrame(s, c);
    case OnSelection(c) => SelectionFrame(s, c);
  }

  predicate WonIn(job: RankedJob, p: Period) {
    job.status.Settled? && job.status.winner == p.version && job.status.epoch == p.epoch
  }

  function WonRevenue(p: Period): (RankedJobId, RankedJob) -> int {
    (id, job) => if WonIn(job, p) then job.authorization.reward else 0
  }

  function WonCost(p: Period): (RankedJobId, RankedJob) -> int {
    (id, job) => if WonIn(job, p) then job.authorization.verifiedCost else 0
  }

  // The economy of a version in an epoch is the settled work it won there.
  ghost predicate Earned(jobs: map<RankedJobId, RankedJob>, economies: map<Period, Economy>) {
    forall v, e ::
      && EconomyOf(economies, v, e).revenue == SumBy(jobs, WonRevenue(Period(v, e)))
      && EconomyOf(economies, v, e).cost == SumBy(jobs, WonCost(Period(v, e)))
  }

  lemma UnsettledEarned(
    jobs: map<RankedJobId, RankedJob>, economies: map<Period, Economy>, id: RankedJobId, job: RankedJob)
    requires Earned(jobs, economies)
    requires !job.status.Settled? && (id in jobs ==> !jobs[id].status.Settled?)
    ensures Earned(jobs[id := job], economies)
  {
    forall v, e ensures SumBy(jobs[id := job], WonRevenue(Period(v, e))) == SumBy(jobs, WonRevenue(Period(v, e)))
                     && SumBy(jobs[id := job], WonCost(Period(v, e))) == SumBy(jobs, WonCost(Period(v, e)))
    {
      SumByUpdate(jobs, WonRevenue(Period(v, e)), id, job);
      SumByUpdate(jobs, WonCost(Period(v, e)), id, job);
    }
    hide SumBy;
  }

  lemma SettledEarned(
    jobs: map<RankedJobId, RankedJob>, economies: map<Period, Economy>, id: RankedJobId, job: RankedJob)
    requires Earned(jobs, economies) && job.status.Settled?
    requires id in jobs && !jobs[id].status.Settled?
    ensures var a, p := job.authorization, Period(job.status.winner, job.status.epoch);
            var before := EconomyOf(economies, p.version, p.epoch);
            Earned(jobs[id := job], economies[p := Economy(before.revenue + a.reward, before.cost + a.verifiedCost)])
  {
    forall v, e ensures SumBy(jobs[id := job], WonRevenue(Period(v, e)))
                         == SumBy(jobs, WonRevenue(Period(v, e))) + WonRevenue(Period(v, e))(id, job)
                     && SumBy(jobs[id := job], WonCost(Period(v, e)))
                         == SumBy(jobs, WonCost(Period(v, e))) + WonCost(Period(v, e))(id, job)
    {
      SumByUpdate(jobs, WonRevenue(Period(v, e)), id, job);
      SumByUpdate(jobs, WonCost(Period(v, e)), id, job);
    }
    hide SumBy;
  }

  lemma EarnedKept(w: Work, d: Deed)
    requires Earned(w.jobs, w.economies) && Permitted(w, d)
    ensures Earned(Perform(w, d).jobs, Perform(w, d).economies)
  {
    match d
    case Post(a) => UnsettledEarned(w.jobs, w.economies, RankedJobId(a, w.nonce), RankedJob(a, Open));
    case Settle(id, v, e, result, proof) =>
      SettledEarned(w.jobs, w.economies, id, w.jobs[id].(status := Settled(v, e, result, proof)));
    case Expire(id) => UnsettledEarned(w.jobs, w.economies, id, w.jobs[id].(status := Expired));
    case _ =>
  }

  // ---- nothing is used twice ----

  predicate Opens(w: Work, id: RankedJobId, a: Authorization) {
    id in w.jobs && id.authorization == a
  }

  predicate ProvedBy(w: Work, id: RankedJobId, proof: string) {
    id in w.jobs && w.jobs[id].status.Settled? && w.jobs[id].status.proof == proof
  }

  // One job per authorization, and the used authorizations are those of the jobs.
  ghost predicate OneJobEach(w: Work) {
    && w.used <= w.authorizations
    && (forall a | a in w.used :: exists id :: Opens(w, id, a))
    && (forall id, a | Opens(w, id, a) :: a in w.used)
    && (forall x, y, a | Opens(w, x, a) && Opens(w, y, a) :: x == y)
  }

  // One use per proof, by a settled job or by an operating expense.
  ghost predicate OneUseEach(w: Work, expenseProofs: seq<string>) {
    && Sorting.Distinct(expenseProofs)
    && (forall x, p | ProvedBy(w, x, p) :: p in w.proofs && p !in expenseProofs)
    && (forall x, y, p | ProvedBy(w, x, p) && ProvedBy(w, y, p) :: x == y)
    && (forall p | p in expenseProofs :: p in w.proofs)
    && (forall p | p in w.proofs :: p in expenseProofs || exists x :: ProvedBy(w, x, p))
  }

  lemma OneJobKept(w: Work, d: Deed)
    requires OneJobEach(w) && Permitted(w, d)
    ensures OneJobEach(Perform(w, d))
  {
    var t := Perform(w, d);
    assert forall id, a :: Opens(t, id, a) <==> Opens(w, id, a) || (d == Post(a) && id == RankedJobId(a, w.nonce));
    assert d.Post? ==> Opens(t, RankedJobId(d.authorization, w.nonce), d.authorization);
    assert t.used == if d.Post? then w.used + {d.authorization} else w.used;
    assert t.used <= t.authorizations;
    hide Perform;
  }

  ghost function ProofsAfter(expenseProofs: seq<string>, d: Deed): seq<string> {
    if d.Prove? then expenseProofs + [d.proof] else expenseProofs
  }

  lemma OneUseKept(w: Work, d: Deed, expenseProofs: seq<string>)
    requires OneUseEach(w, expenseProofs) && Permitted(w, d)
    ensures OneUseEach(Perform(w, d), ProofsAfter(expenseProofs, d))
  {
    var t := Perform(w, d);
    assert forall x, p :: ProvedBy(t, x, p) <==> ProvedBy(w, x, p) || (d.Settle? && x == d.job && p == d.proof);
    assert forall p :: p in t.proofs <==> p in w.proofs || ((d.Settle? || d.Prove?) && p == d.proof);
    assert d.Settle? ==> ProvedBy(t, d.job, d.proof);
    hide Perform;
  }
}
