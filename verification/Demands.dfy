// What every call demands, in the order it asks: in a reachable state a call
// raises exactly when a demand is not met, with the error of the first such.
module Demands {
  import opened Options
  import opened Totals
  import opened ArenaTypes
  import S = ArenaSpec
  import opened Runs
  import opened Sorting
  import opened Conservation
  import opened Lineages
  import opened Chronology
  import opened RankedWork
  import opened Provenance
  import opened Safety
  import opened Bonds

  function Need(holds: bool, error: Error): Option<Error> {
    if holds then None else Some(error)
  }

  // ---- reads that are defined for any identifier ----

  predicate Incubates(s: State, v: VersionId) {
    v in s.registry.versions && s.registry.versions[v].status.Incubating?
  }

  // At most two hours since the last heartbeat.
  predicate Fresh(s: State, v: VersionId) {
    v in s.registry.versions && s.now - s.registry.versions[v].lastHeartbeat <= 7_200
  }

  // Where money for a version goes: to itself while it is live, to the active
  // version of its lineage once it was replaced, and nowhere when it is stale.
  function Recipient(r: Registry, v: VersionId): Option<VersionId> {
    if v !in r.versions then None
    else
      match r.versions[v].status
      case Incubating | Active => Some(v)
      case Superseded(_) => ActiveIn(r, v.lineage)
      case Stale => None
  }

  function SignersOf(s: State, v: VersionId): seq<Account> {
    if v in s.registry.versions then s.registry.versions[v].signers else []
  }

  function ThresholdOf(s: State, v: VersionId): int {
    if v in s.registry.versions then s.registry.versions[v].threshold else 0
  }

  // When a version last showed profit, or was registered.
  function LastSign(s: State, v: VersionId): int {
    if v !in s.registry.versions then s.now
    else
      match s.registry.versions[v].lastPositiveProfitAt
      case Some(at) => at
      case None => s.registry.versions[v].createdAt
  }

  function BornIn(s: State, v: VersionId): int {
    if v in s.registry.versions then s.registry.versions[v].createdAt / 604_800 else 0
  }

  predicate JobOpen(s: State, id: RankedJobId) {
    id in s.work.jobs && s.work.jobs[id].status.Open?
  }

  predicate Holds(s: State, id: MarketJobId, offered: bool, submitted: bool) {
    && id in s.market.jobs
    && ((offered && s.market.jobs[id].status.Offered?) || (submitted && s.market.jobs[id].status.Submitted?))
  }

  // ---- demands that several calls share ----

  function Pays(s: State, x: Account, amount: int): Option<Error> {
    Need(amount > 0, AmountNotPositive)
      .Or(Need(Get(s.bank.wallets, x) >= amount, InsufficientWallet))
  }

  function Reaches(s: State, v: VersionId): Option<Error> {
    Need(v in s.registry.versions, VersionNotFound)
      .Or(Need(Recipient(s.registry, v).Some?, NoBeneficiary))
  }

  function RunBy(s: State, v: VersionId, operator: Account): Option<Error> {
    Need(v in s.registry.versions, VersionNotFound)
      .Or(Need(v.operator == operator, NotOperator))
  }

  // The bytes that UTF-8 takes for one character.
  function Octets(c: char): seq<int> {
    var n := c as int;
    if n <= 0x7F then [n]
    else if n <= 0x7FF then [0xC0 + n / 64, 0x80 + n % 64]
    else if n <= 0xFFFF then [0xE0 + n / 4096, 0x80 + n / 64 % 64, 0x80 + n % 64]
    else [0xF0 + n / 262144, 0x80 + n / 4096 % 64, 0x80 + n / 64 % 64, 0x80 + n % 64]
  }

  function Utf8(text: string): seq<int> {
    if text == "" then [] else Octets(text[0]) + Utf8(text[1..])
  }

  function Declares(d: Declaration, attested: bool, license: string): Option<Error> {
    Need(license == "AGPL-3.0-or-later", WrongLicense)
      .Or(Need(attested, AttestationRejected))
      .Or(Need("" !in [d.sourceDigest, d.imageDigest, d.provenanceDigest, d.runtimeIdentity, d.sourceUri],
               IncompleteDeclaration))
      .Or(Need("ipfs://" <= d.sourceUri, NotIpfs))
      .Or(Need(|Utf8(d.sourceUri)| <= 256, UriTooLong))
  }

  // No signers stand for the operator alone, no funder for the operator.
  function Signers(signers: seq<Account>, operator: Account): seq<Account> {
    if |signers| == 0 then [operator] else signers
  }

  function Funder(funder: Account, operator: Account): Account {
    if |funder| == 0 then operator else funder
  }

  function Policy(signers: seq<Account>, threshold: int, operator: Account): Option<Error> {
    Need(1 <= threshold <= |Signers(signers, operator)|, InvalidThreshold)
      .Or(Need(operator in Signers(signers, operator), OperatorNotSigner))
  }

  function Closed(s: State, e: int): Option<Error> {
    Need(s.now / 604_800 != 0, NoClosedEpoch)
      .Or(Need(e == s.now / 604_800 - 1, WrongEpoch))
  }

  function ChallengeDemands(s: State, c: VersionId, e: int, useMedian: bool): Option<Error> {
    var incumbent := ActiveIn(s.registry, c.lineage);
    var own := if useMedian then S.MedianProfit(s.work.economies, c, e) else ProfitOf(s.work.economies, c, e);
    var other :=
      if incumbent.None? then 0
      else if useMedian then S.MedianProfit(s.work.economies, incumbent.value, e)
      else ProfitOf(s.work.economies, incumbent.value, e);
    Closed(s, e)
      .Or(Need(c in s.registry.versions, VersionNotFound))
      .Or(Need(Incubates(s, c), NotIncubating))
      .Or(Need(Fresh(s, c), HeartbeatTooOld))
      .Or(Need(incumbent.Some?, NoIncumbent))
      .Or(Need(EconomyOf(s.work.economies, c, e).revenue != 0, NoRankedRevenue))
      .Or(Need(own > 0, NoPositiveProfit))
      .Or(Need(own > other, NotMoreProfitable))
  }

  // More than a tenth of the daily cap needs as many distinct signatures as the
  // version's threshold, all by its signers.
  predicate Small(amount: int) { 10 * amount <= 50_000 }

  predicate EnoughSigners(s: State, v: VersionId, sigs: seq<Account>) {
    sigs != [] && |set x | x in sigs| >= ThresholdOf(s, v)
  }

  predicate KnownSigners(s: State, v: VersionId, sigs: seq<Account>) {
    forall x | x in sigs :: x in SignersOf(s, v)
  }

  // ---- the demands of each call ----

  function MoneyDemands(s: State, c: MoneyCall): Option<Error> {
    match c
    case Advance(n) => Need(n >= 0, TimeBackwards)
    case AdvanceToNextEpoch => None
    case Mint(_, n) => Need(n > 0, AmountNotPositive)
    case FundCommons(x, n) => Pays(s, x, n)
    case DirectTransfer(x, n) => Pays(s, x, n)
    case AbsorbSurplus => Need(s.bank.surplus > 0, NoSurplus)
    case Donate(x, v, n) => Reaches(s, v).Or(Pays(s, x, n))
    case SettleExpense(operator, v, id, to, n, payload, proof, valid, sigs) =>
      RunBy(s, v, operator)
        .Or(Need(IsLive(s.registry, v), NotLive))
        .Or(Need(n > 0, AmountNotPositive))
        .Or(Need(valid && proof != "", InvalidExpenseProof))
        .Or(Need(proof !in s.work.proofs, ProofReplay))
        .Or(Need(Get(s.bank.vaults, v) >= n, InsufficientVault))
        .Or(Need("" !in [id, payload, to], InvalidExpenseMetadata))
        .Or(Need(Get(s.tally.dailyExpense, SpendDay(v, s.now / 86_400)) + n <= 50_000, DailyCapExceeded))
        .Or(Need(Small(n) || EnoughSigners(s, v, sigs), MultiSigRequired))
        .Or(Need(Small(n) || KnownSigners(s, v, sigs), UnknownSigner))
  }

  function RegistryDemands(s: State, c: RegistryCall): Option<Error> {
    match c
    case CreateLineage(operator, d, salt, attested, license, funder, signers, threshold) =>
      Declares(d, attested, license)
        .Or(Need(LineageId(operator, d.sourceDigest, salt) !in s.registry.active, LineageExists))
        .Or(Pays(s, Funder(funder, operator), 1_000))
        .Or(Policy(signers, threshold, operator))
    case RegisterVersion(l, parent, operator, d, salt, attested, license, funder, signers, threshold) =>
      Need(l in s.registry.active, LineageNotFound)
        .Or(Need(parent in s.registry.versions, VersionNotFound))
        .Or(Need(parent.lineage == l, ParentMismatch))
        .Or(Declares(d, attested, license))
        .Or(Need(VersionId(l, Some(parent), operator, d, salt) !in s.registry.versions, VersionExists))
        .Or(Pays(s, Funder(funder, operator), 1_000))
        .Or(Policy(signers, threshold, operator))
    case ReclaimBond(operator, v) =>
      RunBy(s, v, operator)
        .Or(Need(Get(s.bonds.amount, v) != 0, NoBond))
        .Or(Need(s.now / 604_800 > BornIn(s, v), BondLocked))
        .Or(Need(ProfitOf(s.work.economies, v, s.now / 604_800 - 1) > 0, NoPositiveProfit))
        .Or(Need(s.bank.commonsAvailable >= Get(s.bonds.amount, v), CommonsInsufficient))
    case Heartbeat(operator, v, stateHash, attested) =>
      RunBy(s, v, operator)
        .Or(Need(IsLive(s.registry, v), NotLive))
        .Or(Need(stateHash != "", StateHashRequired))
        .Or(Need(attested, InvalidHeartbeat))
        .Or(Need(Get(s.bank.vaults, v) >= 1, InsufficientVault))
  }

  ghost function RankedDemands(s: State, c: RankedCall): Option<Error> {
    match c
    case AuthorizeJob(a, verifiers) =>
      Need(a.reward > 0, AmountNotPositive)
        .Or(Need(s.now < a.deadline, DeadlinePassed))
        .Or(Need(a.verifiedCost >= 0, NegativeCost))
        .Or(Need(a.verifiedCost == 0 || (a.costRecipient.Some? && a.costRecipient.value != ""), RecipientRequired))
        .Or(Need("" !in [a.specHash, a.verifier, a.expectedResult], InvalidJob))
        .Or(Need(verifiers == [] || a.verifier in verifiers, VerifierNotInSet))
        .Or(Need(Distinct(verifiers), DuplicateVerifiers))
    case CreateRankedJob(a) =>
      Need(a in s.work.authorizations, NotScheduled)
        .Or(Need(a !in s.work.used, AuthorizationReplay))
        .Or(Need(s.now < a.deadline, DeadlinePassed))
        .Or(Need(s.bank.commonsAvailable >= a.reward, CommonsInsufficient))
    case SubmitRanked(operator, id, v, result, proof, valid) =>
      Need(JobOpen(s, id), NotOpen)
        .Or(Need(s.now <= id.authorization.deadline, DeadlinePassed))
        .Or(RunBy(s, v, operator))
        .Or(Need(IsLive(s.registry, v), NotLive))
        .Or(Need(Fresh(s, v), HeartbeatTooOld))
        .Or(Need(valid, ObjectiveProofRejected))
        .Or(Need(result == id.authorization.expectedResult, WrongResult))
        .Or(Need(proof != "", ProofRequired))
        .Or(Need(proof !in s.work.proofs, ProofReplay))
        .Or(Need(Get(s.bank.vaults, v) >= id.authorization.verifiedCost, InsufficientVault))
    case ExpireRanked(id) =>
      Need(JobOpen(s, id), NotOpen)
        .Or(Need(s.now > id.authorization.deadline, DeadlineNotReached))
  }

  function MarketDemands(s: State, c: MarketCall): Option<Error> {
    match c
    case OpenMarket(buyer, target, spec, reward, deadline, _) =>
      Reaches(s, target)
        .Or(Need(reward > 0, AmountNotPositive))
        .Or(Need(spec != "" && s.now < deadline, InvalidJob))
        .Or(Pays(s, buyer, reward))
    case SubmitMarket(operator, id, result, _) =>
      if !Holds(s, id, true, false) then Some(NotOpen)
      else
        var job := s.market.jobs[id];
        var performer := Recipient(s.registry, job.target);
        Need(s.now <= job.deadline, DeadlinePassed)
          .Or(Need(result != "", ResultRequired))
          .Or(Reaches(s, job.target))
          .Or(Need(performer.Some? && performer.value.operator == operator, NotOperator))
          .Or(Need(performer.Some? && Fresh(s, performer.value), HeartbeatTooOld))
    case AcceptMarket(buyer, id) =>
      Need(Holds(s, id, false, true), NotSubmitted)
        .Or(Need(id in s.market.jobs && s.market.jobs[id].buyer == buyer, NotBuyer))
    case RefundMarket(buyer, id) =>
      Need(Holds(s, id, true, true), NotRefundable)
        .Or(Need(id in s.market.jobs && s.market.jobs[id].buyer == buyer, NotBuyer))
        .Or(Need(id in s.market.jobs && s.now > s.market.jobs[id].deadline, DeadlineNotReached))
  }

  function SelectionDemands(s: State, c: SelectionCall): Option<Error> {
    match c
    case Supersede(v, e) => ChallengeDemands(s, v, e, false)
    case CommitSupersede(v, e, salt) =>
      Closed(s, e)
        .Or(Need(salt != "", SaltRequired))
        .Or(Need(CommitId(v, e, salt) !in s.commits.made, CommitExists))
        .Or(Need(v in s.registry.versions, VersionNotFound))
    case RevealSupersede(v, e, salt) =>
      var id := CommitId(v, e, salt);
      Closed(s, e)
        .Or(Need(id in s.commits.made, NoCommit))
        .Or(Need(id !in s.commits.revealed, AlreadyRevealed))
        .Or(Need(id in s.commits.made && s.now - s.commits.made[id].committedAt >= 4, RevealTooEarly))
        .Or(ChallengeDemands(s, v, e, true))
    case EjectStale(v) =>
      Need(v in s.registry.versions, VersionNotFound)
        .Or(Need(IsLive(s.registry, v), NotLive))
        .Or(Need(s.now - LastSign(s, v) > 2_592_000, NotStale))
    case ClaimVacancy(v, e) =>
      Closed(s, e)
        .Or(Need(v in s.registry.versions, VersionNotFound))
        .Or(Need(Incubates(s, v), NotIncubating))
        .Or(Need(ActiveIn(s.registry, v.lineage).None?, ActiveExists))
        .Or(Need(Fresh(s, v), HeartbeatTooOld))
        .Or(Need(ProfitOf(s.work.economies, v, e) > 0, NoPositiveProfit))
  }

  ghost function Demand(s: State, a: Action): Option<Error> {
    match a
    case OnMoney(c) => MoneyDemands(s, c)
    case OnRegistry(c) => RegistryDemands(s, c)
    case OnRanked(c) => RankedDemands(s, c)
    case OnMarket(c) => MarketDemands(s, c)
    case OnSelection(c) => SelectionDemands(s, c)
  }

  // The call returns when nothing is left to demand, and raises the first error.
  predicate Judged(o: Outcome, demand: Option<Error>) {
    match o
    case Done(_) => demand == None
    case Raised(_, error) => demand == Some(error)
  }

  // ---- the shared demands are those of the code ----

  lemma PaysExactly(s: State)
    ensures forall x, n :: S.DebitError(s.bank, x, n) == Pays(s, x, n)
  {
  }

  lemma ReachesExactly(s: State)
    requires Pointed(s.registry)
    ensures forall v | v in s.registry.versions :: S.LiveBeneficiary(s.registry, v) == Recipient(s.registry, v)
    ensures forall v :: S.BeneficiaryError(s.registry, v) == Reaches(s, v)
    ensures forall v :: Recipient(s.registry, v).Some? ==> Recipient(s.registry, v).value in s.registry.versions
  {
  }

  lemma RecipientLives(r: Registry, v: VersionId)
    requires Pointed(r) && Recipient(r, v).Some?
    ensures var b := Recipient(r, v).value; IsLive(r, b) && Recipient(r, b) == Some(b)
  {
  }

  lemma {:induction false} Utf8Octets(text: string)
    ensures S.Utf8Length(text) == |Utf8(text)|
  {
    if text != "" {
      Utf8Octets(text[1..]);
    }
  }

  lemma DeclaresExactly(d: Declaration, attested: bool, license: string)
    ensures S.DeclarationError(d, attested, license) == Declares(d, attested, license)
  {
    hide Utf8, S.Utf8Length;
    Utf8Octets(d.sourceUri);
  }

  lemma PolicyExactly(signers: seq<Account>, threshold: int, operator: Account)
    ensures S.SignersOr(signers, operator) == Signers(signers, operator)
    ensures S.SignerError(S.SignersOr(signers, operator), threshold, operator) == Policy(signers, threshold, operator)
  {
  }

  lemma ClosedExactly(s: State)
    ensures forall e :: S.EpochError(s, e) == Closed(s, e)
  {
  }

  // ---- money calls ----

  lemma ExpenseExactly(s: State, c: MoneyCall)
    requires c.SettleExpense?
    ensures Judged(MoneyStep(s, c), MoneyDemands(s, c))
  {
    hide Bump, Sum;
  }

  lemma MoneyExactly(s: State, c: MoneyCall)
    requires Pointed(s.registry)
    ensures Judged(MoneyStep(s, c), MoneyDemands(s, c))
  {
    hide Pointed, S.DebitError, Pays, S.BeneficiaryError, Reaches, Bump, EpochAt, S.LiveBeneficiary, Recipient;
    PaysExactly(s);
    ReachesExactly(s);
    if c.SettleExpense? { ExpenseExactly(s, c); }
  }

  // ---- registry calls ----

  lemma RegistrationExactly(s: State, c: RegistryCall)
    requires c.CreateLineage? || c.RegisterVersion?
    ensures Judged(RegistryStep(s, c), RegistryDemands(s, c))
  {
    hide S.DeclarationError, Declares, S.DebitError, Pays, S.SignerError, Policy, S.PostBond, S.Found, S.Enroll;
    PaysExactly(s);
    DeclaresExactly(c.declaration, c.attested, c.license);
    PolicyExactly(c.signers, c.threshold, c.operator);
  }

  // The profit of the last closed epoch decides a reclaim, and the epoch the
  // version was registered in locks its bond.
  lemma ReclaimExactlyWhen(s: State, c: RegistryCall)
    requires c.ReclaimBond? && Bonded(s) && Scheduled(s.work) && Earned(s.work.jobs, s.work.economies)
    ensures Judged(RegistryStep(s, c), RegistryDemands(s, c))
  {
    hide S.Profitable, ProfitOf, Scheduled, Earned, Bump;
    ProfitHasRevenue(s, c.version, EpochAt(s.now) - 1);
  }

  lemma RegistryExactly(s: State, c: RegistryCall)
    requires Bonded(s) && Scheduled(s.work) && Earned(s.work.jobs, s.work.economies)
    ensures Judged(RegistryStep(s, c), RegistryDemands(s, c))
  {
    hide Bonded, Scheduled, Earned, RegistryStep, RegistryDemands;
    match c
    case Heartbeat(_, _, _, _) => BeatExactly(s, c);
    case ReclaimBond(_, _) => ReclaimExactlyWhen(s, c);
    case _ => RegistrationExactly(s, c);
  }

  lemma BeatExactly(s: State, c: RegistryCall)
    requires c.Heartbeat?
    ensures Judged(RegistryStep(s, c), RegistryDemands(s, c))
  {
    hide Bump, S.Beat;
  }

  // ---- ranked calls ----

  lemma {:induction false} DistinctSize(xs: seq<string>)
    ensures |set x | x in xs| == |xs| <==> Distinct(xs)
    ensures |set x | x in xs| <= |xs|
  {
    hide Distinct;
    if xs == [] {
      NothingTwice(xs);
    } else {
      var rest := xs[1..];
      DistinctSize(rest);
      DistinctFirst(xs);
      var all, others := set x | x in xs, set x | x in rest;
      assert xs == [xs[0]] + rest;
      assert all == others + {xs[0]};
      if xs[0] in rest {
        assert all == others;
      }
    }
  }

  lemma NothingTwice(xs: seq<string>)
    requires |xs| <= 1
    ensures Distinct(xs)
  {
  }

  lemma DistinctFirst(xs: seq<string>)
    requires xs != []
    ensures Distinct(xs) <==> xs[0] !in xs[1..] && Distinct(xs[1..])
  {
    if xs[0] in xs[1..] {
      var k :| 0 <= k < |xs| - 1 && xs[1..][k] == xs[0];
      assert xs[k + 1] == xs[0];
    }
    if Distinct(xs) {
      forall i, j | 0 <= i < j < |xs| - 1 ensures xs[1..][i] != xs[1..][j] {
        assert xs[i + 1] != xs[j + 1];
      }
    }
  }

  lemma ScheduleExactly(s: State, c: RankedCall)
    requires c.AuthorizeJob?
    ensures Judged(RankedStep(s, c), RankedDemands(s, c))
  {
    hide Distinct;
    var vset := if c.verifiers == [] then [c.authorization.verifier] else c.verifiers;
    DistinctSize(vset);
    NothingTwice([c.authorization.verifier]);
    NothingTwice([]);
  }

  lemma SubmissionExactly(s: State, c: RankedCall)
    requires !c.AuthorizeJob? && Scheduled(s.work)
    ensures Judged(RankedStep(s, c), RankedDemands(s, c))
  {
    hide SumBy, PutRankedJob, BookEconomy, S.MarkProfit, Bump, S.CloseJob;
  }

  lemma RankedExactly(s: State, c: RankedCall)
    requires Scheduled(s.work)
    ensures Judged(RankedStep(s, c), RankedDemands(s, c))
  {
    hide Scheduled, RankedStep, RankedDemands;
    if c.AuthorizeJob? { ScheduleExactly(s, c); } else { SubmissionExactly(s, c); }
  }

  // ---- market calls ----

  lemma MarketExactly(s: State, c: MarketCall)
    requires Pointed(s.registry) && Escrowed(s.market, s.registry)
    ensures Judged(MarketStep(s, c), MarketDemands(s, c))
  {
    hide Pointed, S.DebitError, Pays, S.LiveBeneficiary, Recipient, S.PayMarket, PutMarketJob, Bump;
    PaysExactly(s);
    ReachesExactly(s);
  }

  // ---- selection calls ----

  // What the code checks beyond these demands never fails: the active version is
  // another one, registered, and of the same lineage.
  lemma ChallengesExactly(s: State, c: VersionId, e: int, useMedian: bool)
    requires Pointed(s.registry)
    ensures S.ChallengeError(s, c, e, useMedian) == ChallengeDemands(s, c, e, useMedian)
  {
    hide S.EpochError, Closed, S.MedianProfit, EconomyOf;
    ClosedExactly(s);
  }

  lemma SelectionExactly(s: State, c: SelectionCall)
    requires Pointed(s.registry) && Scheduled(s.work) && Earned(s.work.jobs, s.work.economies)
    ensures Judged(SelectionStep(s, c), SelectionDemands(s, c))
  {
    hide Pointed, Scheduled, Earned, S.EpochError, Closed, S.ChallengeError, ChallengeDemands, S.Promote, S.FirstHeir,
      S.Bequeath, S.Retire, S.SlashIfUnprofitable, S.Claim, S.Profitable, ProfitOf, EpochAt;
    ClosedExactly(s);
    match c
    case Supersede(v, e) => ChallengesExactly(s, v, e, false);
    case RevealSupersede(v, e, salt) =>
      ChallengesExactly(s.(commits := s.commits.(revealed := s.commits.revealed + {CommitId(v, e, salt)})), v, e, true);
      ChallengesSame(s, s.commits.(revealed := s.commits.revealed + {CommitId(v, e, salt)}), v, e);
    case ClaimVacancy(v, e) => ProfitHasRevenue(s, v, e);
    case _ =>
  }

  lemma ChallengesSame(s: State, commits: Commits, c: VersionId, e: int)
    ensures ChallengeDemands(s.(commits := commits), c, e, true) == ChallengeDemands(s, c, e, true)
  {
    hide S.MedianProfit, EconomyOf, ProfitOf;
  }

  // ---- all calls ----

  lemma DemandsExact(start: int, run: seq<Action>, a: Action)
    ensures var s := WorldAfter(start, run).state;
            Judged(Step(s, a), Demand(s, a))
  {
    hide WorldAfter, MoneyStep, RegistryStep, RankedStep, MarketStep, SelectionStep, MoneyDemands, RegistryDemands,
      RankedDemands, MarketDemands, SelectionDemands, Judged, Solvent, Scheduled, Escrowed, Earned, Enrolled, Pointed,
      Chained, OnlyLiveHold, Dated, Committed, Capped, DaysAddUp, Sourced, Bonded;
    ReachableSound(start, run);
    ReachableSettling(start, run);
    var s := WorldAfter(start, run).state;
    match a
    case OnMoney(c) => MoneyExactly(s, c);
    case OnRegistry(c) => RegistryExactly(s, c);
    case OnRanked(c) => RankedExactly(s, c);
    case OnMarket(c) => MarketExactly(s, c);
    case OnSelection(c) => SelectionExactly(s, c);
  }
}
