// What a call that raises leaves behind.
module Raises {
  import opened Options
  import opened Totals
  import opened ArenaTypes
  import S = ArenaSpec
  import opened Runs
  import opened Conservation
  import opened Lineages
  import opened Bonds

  datatype Trace =
    | NoTrace
    | BondLeft(funder: Account, version: VersionId)
    | BondTaken(version: VersionId)
    | CommitUsed(commit: CommitId)

  function Leave(s: State, trace: Trace): State {
    match trace
    case NoTrace => s
    case BondLeft(funder, v) => S.PostBond(s, funder, v)
    case BondTaken(v) => S.ClearBond(s, v)
    case CommitUsed(id) => s.(commits := s.commits.(revealed := s.commits.revealed + {id}))
  }

  // A registration in which everything but the signer policy is in order.
  predicate GenesisFault(
    s: State, operator: Account, d: Declaration, salt: string, attested: bool, license: string,
    funder: Account, signers: seq<Account>, threshold: int)
  {
    && S.DeclarationError(d, attested, license).None?
    && S.GenesisId(operator, d, salt).lineage !in s.registry.active
    && S.DebitError(s.bank, S.FunderOr(funder, operator), VERSION_BOND).None?
    && S.SignerError(S.SignersOr(signers, operator), threshold, operator).Some?
  }

  predicate RegistrationFault(
    s: State, lineage: LineageId, parent: VersionId, operator: Account, d: Declaration, salt: string,
    attested: bool, license: string, funder: Account, signers: seq<Account>, threshold: int)
  {
    && lineage in s.registry.active && parent in s.registry.versions && parent.lineage == lineage
    && S.DeclarationError(d, attested, license).None?
    && VersionId(lineage, Some(parent), operator, d, salt) !in s.registry.versions
    && S.DebitError(s.bank, S.FunderOr(funder, operator), VERSION_BOND).None?
    && S.SignerError(S.SignersOr(signers, operator), threshold, operator).Some?
  }

  // A reveal that is in order by its commit, but loses the challenge.
  predicate RevealFault(s: State, challenger: VersionId, epoch: int, salt: string) {
    var id := CommitId(challenger, epoch, salt);
    && S.EpochError(s, epoch).None?
    && id in s.commits.made && id !in s.commits.revealed
    && s.now >= s.commits.made[id].committedAt + COMMIT_PHASE_BLOCKS
    && S.ChallengeError(s, challenger, epoch, true).Some?
  }

  function TraceOf(s: State, a: Action): Trace {
    match a
    case OnRegistry(CreateLineage(o, d, salt, at, l, f, sg, n)) =>
      if GenesisFault(s, o, d, salt, at, l, f, sg, n)
      then BondLeft(S.FunderOr(f, o), S.GenesisId(o, d, salt)) else NoTrace
    case OnRegistry(RegisterVersion(l, p, o, d, salt, at, li, f, sg, n)) =>
      if RegistrationFault(s, l, p, o, d, salt, at, li, f, sg, n)
      then BondLeft(S.FunderOr(f, o), VersionId(l, Some(p), o, d, salt)) else NoTrace
    case OnRegistry(ReclaimBond(o, v)) =>
      if Eligible(s, o, v) && s.bank.commonsAvailable < Get(s.bonds.amount, v) then BondTaken(v) else NoTrace
    case OnSelection(RevealSupersede(c, e, salt)) =>
      if RevealFault(s, c, e, salt) then CommitUsed(CommitId(c, e, salt)) else NoTrace
    case _ => NoTrace
  }

  // The error names the fault that left the trace; a settlement never misses its
  // recipient, and an accepted result never its performer.
  predicate ErrorFits(s: State, a: Action, trace: Trace, error: Error) {
    && error != RecipientMissing
    && (a.OnMarket? && a.market.AcceptMarket? ==> error != VersionNotFound)
    && match trace
       case NoTrace => true
       case BondLeft(_, _) => error == InvalidThreshold || error == OperatorNotSigner
       case BondTaken(_) => error == CommonsInsufficient
       case CommitUsed(id) => S.ChallengeError(s, id.challenger, id.epoch, true) == Some(error)
  }

  ghost predicate Leaves(s: State, a: Action, o: Outcome) {
    var trace := TraceOf(s, a);
    && (!trace.NoTrace? ==> o.Raised?)
    && (o.Raised? ==> o.state == Leave(s, trace) && ErrorFits(s, a, trace, o.error))
  }

  lemma GenesisLeaves(s: State, c: RegistryCall)
    requires c.CreateLineage?
    ensures Leaves(s, OnRegistry(c), RegistryStep(s, c))
  {
    hide S.DeclarationError, S.DebitError, S.Found, S.Enroll, EpochAt, S.PostBond;
    DebitErrors(s);
    DeclarationErrors();
  }

  lemma RegistrationLeaves(s: State, c: RegistryCall)
    requires c.RegisterVersion?
    ensures Leaves(s, OnRegistry(c), RegistryStep(s, c))
  {
    hide S.DeclarationError, S.DebitError, S.Found, S.Enroll, EpochAt, S.PostBond;
    DebitErrors(s);
    DeclarationErrors();
  }

  lemma DebitErrors(s: State)
    ensures forall x, n :: S.DebitError(s.bank, x, n) != Some(RecipientMissing)
  {
  }

  lemma DeclarationErrors()
    ensures forall d, at, l :: S.DeclarationError(d, at, l) != Some(RecipientMissing)
  {
    hide S.Utf8Length;
  }

  lemma UpkeepLeaves(s: State, c: RegistryCall)
    requires c.ReclaimBond? || c.Heartbeat?
    ensures Leaves(s, OnRegistry(c), RegistryStep(s, c))
  {
    hide S.Beat, S.Profitable, EpochAt, S.ClearBond, Get, Bump;
  }

  lemma RankedLeaves(s: State, c: RankedCall)
    requires Scheduled(s.work)
    ensures Leaves(s, OnRanked(c), RankedStep(s, c))
  {
    hide PutRankedJob, BookEconomy, S.CloseJob, S.MarkProfit, FreshHeartbeat, EpochAt, Bump, Get;
  }

  lemma MarketLeaves(s: State, c: MarketCall)
    requires Escrowed(s.market, s.registry)
    ensures Leaves(s, OnMarket(c), MarketStep(s, c))
  {
    hide S.PayMarket, PutMarketJob, S.DebitError, S.LiveBeneficiary, FreshHeartbeat, Bump;
    DebitErrors(s);
  }

  lemma MoneyLeaves(s: State, c: MoneyCall)
    ensures Leaves(s, OnMoney(c), MoneyStep(s, c))
  {
    hide S.DebitError, S.LiveBeneficiary, Bump, Get;
    DebitErrors(s);
  }

  lemma SelectionLeaves(s: State, c: SelectionCall)
    ensures Leaves(s, OnSelection(c), SelectionStep(s, c))
  {
    hide S.ChallengeError, S.EpochError, S.FirstHeir, S.Bequeath, S.Retire, S.Promote, S.Claim, S.Profitable,
      FreshHeartbeat, EpochAt;
    ChallengeErrors(s);
    EpochErrors(s);
  }

  // The verdict on a challenge does not depend on commits.
  lemma ChallengeErrors(s: State)
    ensures forall k: Commits, c, e, m :: S.ChallengeError(s.(commits := k), c, e, m) == S.ChallengeError(s, c, e, m)
    ensures forall c, e, m :: S.ChallengeError(s, c, e, m) != Some(RecipientMissing)
  {
    hide S.Metric, FreshHeartbeat, EpochAt;
  }

  lemma EpochErrors(s: State)
    ensures forall e :: S.EpochError(s, e) != Some(RecipientMissing)
  {
  }

  // Each trace is a change.
  lemma TraceChanges(s: State, a: Action)
    ensures !TraceOf(s, a).NoTrace? ==> Leave(s, TraceOf(s, a)) != s
  {
    hide GenesisFault, RegistrationFault, S.Profitable, EpochAt, S.EpochError, S.ChallengeError, Bump;
  }

  lemma NoVersionLeft(s: State, a: Action)
    requires Enrolled(s.registry)
    ensures TraceOf(s, a).BondLeft? ==> TraceOf(s, a).version !in s.registry.versions
  {
    hide Enrolled, S.DeclarationError, S.DebitError, S.SignerError, S.EpochError, S.ChallengeError;
    NewLineages(s.registry);
  }

  lemma RaiseLeaves(s: State, a: Action)
    requires Scheduled(s.work) && Escrowed(s.market, s.registry) && Enrolled(s.registry)
    ensures var o, trace := Step(s, a), TraceOf(s, a);
            && (o.Raised? && o.state != s <==> !trace.NoTrace?)
            && (o.Raised? ==> o.state == Leave(s, trace) && ErrorFits(s, a, trace, o.error))
            && (trace.BondLeft? ==> trace.version !in s.registry.versions)
  {
    hide Enrolled, Scheduled, Escrowed, MoneyStep, RegistryStep, RankedStep, MarketStep, SelectionStep, TraceOf,
      ErrorFits, GenesisFault, RegistrationFault;
    TraceChanges(s, a);
    NoVersionLeft(s, a);
    match a
    case OnMoney(c) => MoneyLeaves(s, c);
    case OnRegistry(c) =>
      if c.CreateLineage? { GenesisLeaves(s, c); }
      else if c.RegisterVersion? { RegistrationLeaves(s, c); }
      else { UpkeepLeaves(s, c); }
    case OnRanked(c) => RankedLeaves(s, c);
    case OnMarket(c) => MarketLeaves(s, c);
    case OnSelection(c) => SelectionLeaves(s, c);
  }
}
