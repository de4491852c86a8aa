// Calls as data, runs of calls, and the bookkeeping that proofs keep beside a run.
module Runs {
  import opened Options
  import opened Totals
  import opened ArenaTypes
  import S = ArenaSpec

  datatype MoneyCall =
    | Advance(seconds: int)
    | AdvanceToNextEpoch
    | Mint(account: Account, amount: int)
    | FundCommons(donor: Account, amount: int)
    | DirectTransfer(donor: Account, amount: int)
    | AbsorbSurplus
    | Donate(donor: Account, version: VersionId, amount: int)
    | SettleExpense(operator: Account, version: VersionId, expenseId: string, recipient: Account, amount: int,
                    payloadHash: string, proof: string, valid: bool, sigs: seq<Account>)

  datatype RegistryCall =
    | CreateLineage(operator: Account, declaration: Declaration, salt: string, attested: bool, license: string,
                    bondFunder: Account, signers: seq<Account>, threshold: int)
    | RegisterVersion(lineage: LineageId, parent: VersionId, operator: Account, declaration: Declaration,
                      salt: string, attested: bool, license: string,
                      bondFunder: Account, signers: seq<Account>, threshold: int)
    | ReclaimBond(operator: Account, version: VersionId)
    | Heartbeat(operator: Account, version: VersionId, stateHash: string, attested: bool)

  datatype RankedCall =
    | AuthorizeJob(authorization: Authorization, verifiers: seq<string>)
    | CreateRankedJob(authorization: Authorization)
    | SubmitRanked(operator: Account, job: RankedJobId, version: VersionId, result: string, proof: string,
                   valid: bool)
    | ExpireRanked(job: RankedJobId)

  datatype MarketCall =
    | OpenMarket(buyer: Account, target: VersionId, specHash: string, reward: int, deadline: int,
                 workVerifier: string)
    | SubmitMarket(operator: Account, job: MarketJobId, result: string, valid: bool)
    | AcceptMarket(buyer: Account, job: MarketJobId)
    | RefundMarket(buyer: Account, job: MarketJobId)

  datatype SelectionCall =
    | Supersede(challenger: VersionId, epoch: int)
    | CommitSupersede(challenger: VersionId, epoch: int, salt: string)
    | RevealSupersede(challenger: VersionId, epoch: int, salt: string)
    | EjectStale(version: VersionId)
    | ClaimVacancy(version: VersionId, epoch: int)

  datatype Action =
    | OnMoney(money: MoneyCall)
    | OnRegistry(registry: RegistryCall)
    | OnRanked(ranked: RankedCall)
    | OnMarket(market: MarketCall)
    | OnSelection(selection: SelectionCall)

  function MoneyStep(s: State, c: MoneyCall): Outcome {
    match c
    case Advance(n) => S.Advance(s, n)
    case AdvanceToNextEpoch => S.AdvanceToNextEpoch(s)
    case Mint(x, n) => S.Mint(s, x, n)
    case FundCommons(x, n) => S.FundCommons(s, x, n)
    case DirectTransfer(x, n) => S.DirectTransfer(s, x, n)
    case AbsorbSurplus => S.AbsorbSurplus(s)
    case Donate(x, v, n) => S.Donate(s, x, v, n)
    case SettleExpense(o, v, i, r, n, h, p, ok, sigs) => S.SettleExpense(s, o, v, i, r, n, h, p, ok, sigs)
  }

  function RegistryStep(s: State, c: RegistryCall): Outcome {
    match c
    case CreateLineage(o, d, salt, at, l, f, sg, t) => S.CreateLineage(s, o, d, salt, at, l, f, sg, t)
    case RegisterVersion(l, p, o, d, salt, at, li, f, sg, t) =>
      S.RegisterVersion(s, l, p, o, d, salt, at, li, f, sg, t)
    case ReclaimBond(o, v) => S.ReclaimBond(s, o, v)
    case Heartbeat(o, v, h, at) => S.Heartbeat(s, o, v, h, at)
  }

  function RankedStep(s: State, c: RankedCall): Outcome {
    match c
    case AuthorizeJob(x, vs) => S.AuthorizeJob(s, x, vs)
    case CreateRankedJob(x) => S.CreateRankedJob(s, x)
    case SubmitRanked(o, j, v, r, p, ok) => S.SubmitRanked(s, o, j, v, r, p, ok)
    case ExpireRanked(j) => S.ExpireRanked(s, j)
  }

  function MarketStep(s: State, c: MarketCall): Outcome {
    match c
    case OpenMarket(b, t, h, n, d, w) => S.OpenMarket(s, b, t, h, n, d, w)
    case SubmitMarket(o, j, r, ok) => S.SubmitMarket(s, o, j, r, ok)
    case AcceptMarket(b, j) => S.AcceptMarket(s, b, j)
    case RefundMarket(b, j) => S.RefundMarket(s, b, j)
  }

  function SelectionStep(s: State, c: SelectionCall): Outcome {
    match c
    case Supersede(v, e) => S.Supersede(s, v, e)
    case CommitSupersede(v, e, salt) => S.CommitSupersede(s, v, e, salt)
    case RevealSupersede(v, e, salt) => S.RevealSupersede(s, v, e, salt)
    case EjectStale(v) => S.EjectStale(s, v)
    case ClaimVacancy(v, e) => S.ClaimVacancy(s, v, e)
  }

  function Step(s: State, a: Action): Outcome {
    match a
    case OnMoney(c) => MoneyStep(s, c)
    case OnRegistry(c) => RegistryStep(s, c)
    case OnRanked(c) => RankedStep(s, c)
    case OnMarket(c) => MarketStep(s, c)
    case OnSelection(c) => SelectionStep(s, c)
  }

  // The state after a call, whether it returned or raised.
  function Next(s: State, a: Action): State { Step(s, a).state }

  function After(s: State, run: seq<Action>): State {
    if run == [] then s
    else Next(After(s, run[..|run| - 1]), run[|run| - 1])
  }

  // Every change a call makes to the registry is one of six writes.
  datatype Write =
    | Keep
    | Found(version: VersionId, entry: Version)
    | Enroll(version: VersionId, entry: Version)
    | Touch(version: VersionId, entry: Version)
    | Crown(incumbent: VersionId, version: VersionId)
    | Retire(version: VersionId)
    | Claim(version: VersionId)

  ghost predicate Applicable(r: Registry, w: Write) {
    match w
    case Keep | Found(_, _) | Enroll(_, _) => true
    case Crown(i, v) => i in r.versions && v in r.versions
    case Touch(v, _) => v in r.versions
    case Retire(v) => v in r.versions
    case Claim(v) => v in r.versions
  }

  ghost function Apply(r: Registry, w: Write): Registry
    requires Applicable(r, w)
  {
    match w
    case Keep => r
    case Found(v, x) => S.Found(r, v, x)
    case Enroll(v, x) => S.Enroll(r, v, x)
    case Touch(v, x) => r.(versions := r.versions[v := x])
    case Crown(i, v) => S.Crown(r, i, v)
    case Retire(v) => S.Retire(r, v)
    case Claim(v) => S.Claim(r, v)
  }

  // The write a call makes; a call that raises makes none.
  ghost function WriteOf(s: State, a: Action): Write {
    var t := Next(s, a).registry;
    if Step(s, a).Raised? then Keep
    else
      match a
      case OnRegistry(CreateLineage(o, d, salt, _, _, _, sg, n)) =>
        Found(S.GenesisId(o, d, salt), S.NewVersion(s.now, Active, S.SignersOr(sg, o), n))
      case OnRegistry(RegisterVersion(l, p, o, d, salt, _, _, _, sg, n)) =>
        Enroll(VersionId(l, Some(p), o, d, salt), S.NewVersion(s.now, Incubating, S.SignersOr(sg, o), n))
      case OnRegistry(Heartbeat(_, v, _, _)) => if v in t.versions then Touch(v, t.versions[v]) else Keep
      case OnRanked(SubmitRanked(_, _, v, _, _, _)) => if v in t.versions then Touch(v, t.versions[v]) else Keep
      case OnSelection(Supersede(c, _)) => CrownOver(s.registry, c)
      case OnSelection(RevealSupersede(c, _, _)) => CrownOver(s.registry, c)
      case OnSelection(EjectStale(v)) => Retire(v)
      case OnSelection(ClaimVacancy(v, _)) => Claim(v)
      case _ => Keep
  }

  ghost function CrownOver(r: Registry, challenger: VersionId): Write {
    match ActiveIn(r, challenger.lineage)
    case Some(incumbent) => Crown(incumbent, challenger)
    case None => Keep
  }

  // What a run is remembered by: the order in which versions became active,
  // the money ejections sent to the commons, and the expense proofs in order.
  datatype History = History(order: map<VersionId, int>, ejected: int, expenseProofs: seq<string>)

  datatype World = World(state: State, history: History)

  // Activation order grows by every version that becomes active.
  ghost function OrderAfter(order: map<VersionId, int>, w: Write): map<VersionId, int> {
    if w.Found? || w.Crown? || w.Claim? then order[w.version := |order|] else order
  }

  ghost function Record(h: History, s: State, a: Action): History {
    var t := Next(s, a);
    History(
      OrderAfter(h.order, WriteOf(s, a)),
      if a.OnSelection? && a.selection.EjectStale?
      then h.ejected + t.bank.commonsAvailable - s.bank.commonsAvailable
      else h.ejected,
      if a.OnMoney? && a.money.SettleExpense? && Step(s, a).Done?
      then h.expenseProofs + [a.money.proof]
      else h.expenseProofs)
  }

  ghost function NextWorld(w: World, a: Action): World {
    World(Next(w.state, a), Record(w.history, w.state, a))
  }

  function Beginning(start: int): World {
    World(Init(start), History(map[], 0, []))
  }

  ghost function WorldAfter(start: int, run: seq<Action>): World {
    if run == [] then Beginning(start)
    else NextWorld(WorldAfter(start, run[..|run| - 1]), run[|run| - 1])
  }

  lemma {:induction false} WorldAfterState(start: int, run: seq<Action>)
    ensures WorldAfter(start, run).state == After(Init(start), run)
  {
    if run != [] {
      WorldAfterState(start, run[..|run| - 1]);
    }
  }

  // ---- what each family of calls leaves alone ----

  lemma MoneyFrame(s: State, c: MoneyCall)
    ensures var t := MoneyStep(s, c).state;
            && t.registry == s.registry && t.market == s.market && t.bonds == s.bonds && t.commits == s.commits
            && t.work.jobs == s.work.jobs && t.work.economies == s.work.economies && t.tally.burned == s.tally.burned
            && s.now <= t.now
  {
    hide S.BeneficiaryError, S.SignatureError, S.DebitError, S.LiveBeneficiary, Bump, Get;
  }

  lemma RegistryFrame(s: State, c: RegistryCall)
    ensures var t := RegistryStep(s, c).state;
            && t.now == s.now && t.work == s.work && t.market == s.market && t.commits == s.commits
            && t.tally == s.tally.(burned := t.tally.burned)
  {
    hide S.DeclarationError, S.SignerError, S.DebitError, S.Found, S.Enroll, S.Beat, Bump, Get, EpochAt, S.Profitable;
  }

  lemma RankedFrame(s: State, c: RankedCall)
    ensures var t := RankedStep(s, c).state;
            && t.now == s.now && t.market == s.market && t.commits == s.commits && t.tally == s.tally
            && t.bonds == s.bonds
  {
    hide PutRankedJob, BookEconomy, S.CloseJob, S.MarkProfit, FreshHeartbeat, EpochAt, Bump, Get;
  }

  lemma MarketFrame(s: State, c: MarketCall)
    ensures var t := MarketStep(s, c).state;
            && t.now == s.now && t.registry == s.registry && t.work == s.work && t.commits == s.commits
            && t.bonds == s.bonds && t.tally == s.tally.(marketRevenue := t.tally.marketRevenue)
  {
    hide PutMarketJob, S.BeneficiaryError, S.DebitError, S.LiveBeneficiary, FreshHeartbeat, Bump, Get;
  }

  lemma SelectionFrame(s: State, c: SelectionCall)
    ensures var t := SelectionStep(s, c).state;
            && t.now == s.now && t.work == s.work && t.market == s.market && t.tally == s.tally
            && (c.Supersede? || c.EjectStale? || c.ClaimVacancy? ==> t.commits == s.commits)
  {
    hide S.ChallengeError, S.EpochError, S.FirstHeir, S.Bequeath, S.Retire, S.Crown, S.Claim, S.Profitable,
      FreshHeartbeat, EpochAt, Bump, Get, EconomyOf;
  }

  lemma StepFamilies(s: State, a: Action)
    ensures a.OnMoney? ==> Step(s, a) == MoneyStep(s, a.money)
    ensures a.OnRegistry? ==> Step(s, a) == RegistryStep(s, a.registry)
    ensures a.OnRanked? ==> Step(s, a) == RankedStep(s, a.ranked)
    ensures a.OnMarket? ==> Step(s, a) == MarketStep(s, a.market)
    ensures a.OnSelection? ==> Step(s, a) == SelectionStep(s, a.selection)
  {
    hide MoneyStep, RegistryStep, RankedStep, MarketStep, SelectionStep;
  }

  // Only money calls move the clock, only selection calls touch commits.
  lemma CallFrame(s: State, a: Action)
    ensures s.now <= Next(s, a).now && (!a.OnMoney? ==> Next(s, a).now == s.now)
    ensures !a.OnSelection? ==> Next(s, a).commits == s.commits
    ensures !a.OnMarket? ==> Next(s, a).market == s.market
    ensures a.OnMoney? || a.OnMarket? ==> Next(s, a).registry == s.registry
    ensures !a.OnRanked? ==> Next(s, a).work.economies == s.work.economies && Next(s, a).work.jobs == s.work.jobs
    ensures !a.OnMoney? ==> Next(s, a).tally.dailyExpense == s.tally.dailyExpense
                            && Next(s, a).tally.operatingSpent == s.tally.operatingSpent
  {
    hide MoneyStep, RegistryStep, RankedStep, MarketStep, SelectionStep;
    match a
    case OnMoney(c) => MoneyFrame(s, c);
    case OnRegistry(c) => RegistryFrame(s, c);
    case OnRanked(c) => RankedFrame(s, c);
    case OnMarket(c) => MarketFrame(s, c);
    case OnSelection(c) => SelectionFrame(s, c);
  }
}
