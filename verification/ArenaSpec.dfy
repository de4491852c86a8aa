// What each entry point of the arena does, branch by branch: the outcome of a
// call is a function of the state it is made in.
module ArenaSpec {
  import opened Options
  import opened Totals
  import opened ArenaTypes
  import opened Medians

  // ---- time ----

  function Advance(s: State, seconds: int): Outcome {
    if seconds < 0 then Raised(s, TimeBackwards) else Done(s.(now := s.now + seconds))
  }

  function AdvanceToNextEpoch(s: State): Outcome {
    Done(s.(now := EpochStart(EpochAt(s.now) + 1)))
  }

  // The only epoch that may be compared; epoch 0 has no predecessor.
  function EpochError(s: State, epoch: int): Option<Error> {
    if EpochAt(s.now) == 0 then Some(NoClosedEpoch)
    else if epoch != EpochAt(s.now) - 1 then Some(WrongEpoch)
    else None
  }

  // ---- money ----

  function DebitError(b: Bank, account: Account, amount: int): Option<Error> {
    if amount <= 0 then Some(AmountNotPositive)
    else if Get(b.wallets, account) < amount then Some(InsufficientWallet)
    else None
  }

  function Mint(s: State, account: Account, amount: int): Outcome {
    if amount <= 0 then Raised(s, AmountNotPositive)
    else Done(s.(bank := s.bank.(
      wallets := Bump(s.bank.wallets, account, amount),
      minted := s.bank.minted + amount)))
  }

  function FundCommons(s: State, donor: Account, amount: int): Outcome {
    match DebitError(s.bank, donor, amount)
    case Some(e) => Raised(s, e)
    case None => Done(s.(bank := s.bank.(
      wallets := Bump(s.bank.wallets, donor, -amount),
      commonsAvailable := s.bank.commonsAvailable + amount)))
  }

  function DirectTransfer(s: State, donor: Account, amount: int): Outcome {
    match DebitError(s.bank, donor, amount)
    case Some(e) => Raised(s, e)
    case None => Done(s.(bank := s.bank.(
      wallets := Bump(s.bank.wallets, donor, -amount),
      surplus := s.bank.surplus + amount)))
  }

  function AbsorbSurplus(s: State): Outcome {
    if s.bank.surplus <= 0 then Raised(s, NoSurplus)
    else Done(s.(bank := s.bank.(
      surplus := 0,
      commonsAvailable := s.bank.commonsAvailable + s.bank.surplus)))
  }

  // Who receives money addressed to a registered version.
  function LiveBeneficiary(r: Registry, v: VersionId): Option<VersionId>
    requires v in r.versions
  {
    if r.versions[v].status.Live() then Some(v)
    else if r.versions[v].status.Superseded? then
      match ActiveIn(r, v.lineage)
      case Some(active) => if IsLive(r, active) then Some(active) else None
      case None => None
    else None
  }

  function BeneficiaryError(r: Registry, v: VersionId): Option<Error> {
    if v !in r.versions then Some(VersionNotFound)
    else if LiveBeneficiary(r, v).None? then Some(NoBeneficiary)
    else None
  }

  function Donate(s: State, donor: Account, v: VersionId, amount: int): Outcome {
    match BeneficiaryError(s.registry, v)
    case Some(e) => Raised(s, e)
    case None =>
      match DebitError(s.bank, donor, amount)
      case Some(e) => Raised(s, e)
      case None =>
        var b := LiveBeneficiary(s.registry, v).value;
        Done(s.(
          bank := s.bank.(
            wallets := Bump(s.bank.wallets, donor, -amount),
            vaults := Bump(s.bank.vaults, b, amount)),
          tally := s.tally.(capitalIn := Bump(s.tally.capitalIn, b, amount))))
  }

  function SignatureError(v: Version, amount: int, sigs: seq<Account>): Option<Error> {
    if amount <= DAILY_EXPENSE_CAP / 10 then None
    else if sigs == [] || |set x | x in sigs| < v.threshold then Some(MultiSigRequired)
    else if exists x :: x in sigs && x !in v.signers then Some(UnknownSigner)
    else None
  }

  function SettleExpense(
    s: State, operator: Account, v: VersionId, expenseId: string, recipient: Account,
    amount: int, payloadHash: string, proof: string, validProof: bool, sigs: seq<Account>
  ): Outcome
  {
    var today := SpendDay(v, DayAt(s.now));
    if v !in s.registry.versions then Raised(s, VersionNotFound)
    else if v.operator != operator then Raised(s, NotOperator)
    else if !s.registry.versions[v].status.Live() then Raised(s, NotLive)
    else if amount <= 0 then Raised(s, AmountNotPositive)
    else if !validProof || proof == "" then Raised(s, InvalidExpenseProof)
    else if proof in s.work.proofs then Raised(s, ProofReplay)
    else if Get(s.bank.vaults, v) < amount then Raised(s, InsufficientVault)
    else if expenseId == "" || payloadHash == "" || recipient == "" then Raised(s, InvalidExpenseMetadata)
    else if Get(s.tally.dailyExpense, today) + amount > DAILY_EXPENSE_CAP then Raised(s, DailyCapExceeded)
    else
      match SignatureError(s.registry.versions[v], amount, sigs)
      case Some(e) => Raised(s, e)
      case None => Done(s.(
        bank := s.bank.(
          vaults := Bump(s.bank.vaults, v, -amount),
          wallets := Bump(s.bank.wallets, recipient, amount)),
        tally := s.tally.(
          operatingSpent := Bump(s.tally.operatingSpent, v, amount),
          dailyExpense := Bump(s.tally.dailyExpense, today, amount)),
        work := s.work.(proofs := s.work.proofs + {proof})))
  }

  // ---- registration ----

  function Utf8Length(text: string): (n: nat)
    ensures n >= |text|
  {
    if text == "" then 0
    else
      var c := text[0] as int;
      (if c < 0x80 then 1 else if c < 0x800 then 2 else if c < 0x1_0000 then 3 else 4) + Utf8Length(text[1..])
  }

  function DeclarationError(d: Declaration, attested: bool, license: string): Option<Error> {
    if license != REQUIRED_LICENSE then Some(WrongLicense)
    else if !attested then Some(AttestationRejected)
    else if d.sourceDigest == "" || d.imageDigest == "" || d.provenanceDigest == ""
            || d.runtimeIdentity == "" || d.sourceUri == "" then Some(IncompleteDeclaration)
    else if !("ipfs://" <= d.sourceUri) then Some(NotIpfs)
    else if Utf8Length(d.sourceUri) > SOURCE_URI_LIMIT then Some(UriTooLong)
    else None
  }

  // The bond moves from the funder's wallet into the commons.
  function PostBond(s: State, funder: Account, v: VersionId): State {
    s.(bank := s.bank.(
         wallets := Bump(s.bank.wallets, funder, -VERSION_BOND),
         commonsAvailable := s.bank.commonsAvailable + VERSION_BOND),
       bonds := Bonds(s.bonds.amount[v := VERSION_BOND], s.bonds.epoch[v := EpochAt(s.now)]))
  }

  function SignersOr(signers: seq<Account>, operator: Account): seq<Account> {
    if signers == [] then [operator] else signers
  }

  function FunderOr(funder: Account, operator: Account): Account {
    if funder == "" then operator else funder
  }

  function SignerError(signers: seq<Account>, threshold: int, operator: Account): Option<Error> {
    if threshold < 1 || threshold > |signers| then Some(InvalidThreshold)
    else if operator !in signers then Some(OperatorNotSigner)
    else None
  }

  function Enroll(r: Registry, v: VersionId, version: Version): Registry {
    r.(versions := r.versions[v := version],
       members := r.members[v.lineage := MembersOf(r, v.lineage) + [v]])
  }

  // The first version of a new lineage is active from the start.
  function Found(r: Registry, v: VersionId, version: Version): Registry {
    Enroll(r, v, version).(active := r.active[v.lineage := Some(v)])
  }

  function NewVersion(now: int, status: Status, signers: seq<Account>, threshold: int): Version {
    Version(now, now, None, status, signers, threshold)
  }

  function GenesisId(operator: Account, d: Declaration, salt: string): VersionId {
    VersionId(LineageId(operator, d.sourceDigest, salt), None, operator, d, salt)
  }

  function CreateLineage(
    s: State, operator: Account, d: Declaration, salt: string, attested: bool, license: string,
    bondFunder: Account, operatorSigners: seq<Account>, threshold: int
  ): Outcome
  {
    match DeclarationError(d, attested, license)
    case Some(e) => Raised(s, e)
    case None =>
      var v := GenesisId(operator, d, salt);
      var signers := SignersOr(operatorSigners, operator);
      if v.lineage in s.registry.active then Raised(s, LineageExists)
      else
        match DebitError(s.bank, FunderOr(bondFunder, operator), VERSION_BOND)
        case Some(e) => Raised(s, e)
        case None =>
          var bonded := PostBond(s, FunderOr(bondFunder, operator), v);
          match SignerError(signers, threshold, operator)
          case Some(e) => Raised(bonded, e)
          case None =>
            Done(bonded.(registry := Found(s.registry, v, NewVersion(s.now, Active, signers, threshold))))
  }

  function RegisterVersion(
    s: State, lineage: LineageId, parent: VersionId, operator: Account, d: Declaration, salt: string,
    attested: bool, license: string, bondFunder: Account, operatorSigners: seq<Account>, threshold: int
  ): Outcome
  {
    var v := VersionId(lineage, Some(parent), operator, d, salt);
    var signers := SignersOr(operatorSigners, operator);
    if lineage !in s.registry.active then Raised(s, LineageNotFound)
    else if parent !in s.registry.versions then Raised(s, VersionNotFound)
    else if parent.lineage != lineage then Raised(s, ParentMismatch)
    else
      match DeclarationError(d, attested, license)
      case Some(e) => Raised(s, e)
      case None =>
        if v in s.registry.versions then Raised(s, VersionExists)
        else
          match DebitError(s.bank, FunderOr(bondFunder, operator), VERSION_BOND)
          case Some(e) => Raised(s, e)
          case None =>
            var bonded := PostBond(s, FunderOr(bondFunder, operator), v);
            match SignerError(signers, threshold, operator)
            case Some(e) => Raised(bonded, e)
            case None =>
              Done(bonded.(registry := Enroll(s.registry, v, NewVersion(s.now, Incubating, signers, threshold))))
  }

  function BondEpoch(s: State, v: VersionId): int {
    if v in s.bonds.epoch then s.bonds.epoch[v] else EpochAt(s.now)
  }

  predicate Profitable(economies: map<Period, Economy>, v: VersionId, e: int) {
    var econ := EconomyOf(economies, v, e);
    econ.revenue != 0 && econ.Profit() > 0
  }

  function ClearBond(s: State, v: VersionId): State {
    s.(bonds := s.bonds.(amount := s.bonds.amount[v := 0]))
  }

  function ReclaimBond(s: State, operator: Account, v: VersionId): Outcome {
    var amount := Get(s.bonds.amount, v);
    if v !in s.registry.versions then Raised(s, VersionNotFound)
    else if v.operator != operator then Raised(s, NotOperator)
    else if amount == 0 then Raised(s, NoBond)
    else if EpochAt(s.now) <= BondEpoch(s, v) then Raised(s, BondLocked)
    else if !Profitable(s.work.economies, v, EpochAt(s.now) - 1) then Raised(s, NoPositiveProfit)
    else if s.bank.commonsAvailable < amount then Raised(ClearBond(s, v), CommonsInsufficient)
    else Done(ClearBond(s, v).(bank := s.bank.(
      commonsAvailable := s.bank.commonsAvailable - amount,
      wallets := Bump(s.bank.wallets, operator, amount))))
  }

  // A bond is forfeited, not moved: the money already sits in the commons.
  function SlashIfUnprofitable(s: State, v: VersionId): State {
    if Get(s.bonds.amount, v) == 0 then s
    else if EpochAt(s.now) - BondEpoch(s, v) >= 2 && !Profitable(s.work.economies, v, EpochAt(s.now) - 1)
    then ClearBond(s, v)
    else s
  }

  function Beat(r: Registry, v: VersionId, now: int): Registry
    requires v in r.versions
  {
    r.(versions := r.versions[v := r.versions[v].(lastHeartbeat := now)])
  }

  function Heartbeat(s: State, operator: Account, v: VersionId, stateHash: string, attested: bool): Outcome {
    if v !in s.registry.versions then Raised(s, VersionNotFound)
    else if v.operator != operator then Raised(s, NotOperator)
    else if !s.registry.versions[v].status.Live() then Raised(s, NotLive)
    else if stateHash == "" then Raised(s, StateHashRequired)
    else if !attested then Raised(s, InvalidHeartbeat)
    else if Get(s.bank.vaults, v) < HEARTBEAT_BURN then Raised(s, InsufficientVault)
    else Done(s.(
      bank := s.bank.(
        vaults := Bump(s.bank.vaults, v, -HEARTBEAT_BURN),
        commonsAvailable := s.bank.commonsAvailable + HEARTBEAT_BURN),
      tally := s.tally.(burned := s.tally.burned + HEARTBEAT_BURN),
      registry := Beat(s.registry, v, s.now)))
  }

  // ---- ranked work ----

  function AuthorizeJob(s: State, a: Authorization, verifiers: seq<string>): Outcome {
    var vset := if verifiers == [] then [a.verifier] else verifiers;
    if a.reward <= 0 then Raised(s, AmountNotPositive)
    else if a.deadline <= s.now then Raised(s, DeadlinePassed)
    else if a.verifiedCost < 0 then Raised(s, NegativeCost)
    else if a.verifiedCost != 0 && (a.costRecipient.None? || a.costRecipient.value == "")
    then Raised(s, RecipientRequired)
    else if a.specHash == "" || a.verifier == "" || a.expectedResult == "" then Raised(s, InvalidJob)
    else if a.verifier !in vset then Raised(s, VerifierNotInSet)
    else if |set x | x in vset| != |vset| then Raised(s, DuplicateVerifiers)
    else Done(s.(work := s.work.(
      authorizations := s.work.authorizations + {a.(verifierSet := vset)})))
  }

  function CreateRankedJob(s: State, a: Authorization): Outcome {
    if a !in s.work.authorizations then Raised(s, NotScheduled)
    else if a in s.work.used then Raised(s, AuthorizationReplay)
    else if a.deadline <= s.now then Raised(s, DeadlinePassed)
    else if s.bank.commonsAvailable < a.reward then Raised(s, CommonsInsufficient)
    else
      var posted := PutRankedJob(s.work, RankedJobId(a, s.work.nonce), RankedJob(a, Open));
      Done(s.(
        work := posted.(used := s.work.used + {a}, nonce := s.work.nonce + 1),
        bank := s.bank.(
          commonsAvailable := s.bank.commonsAvailable - a.reward,
          commonsReserved := s.bank.commonsReserved + a.reward)))
  }

  function MarkProfit(r: Registry, v: VersionId, now: int, profit: int): Registry
    requires v in r.versions
  {
    if profit > 0
    then r.(versions := r.versions[v := r.versions[v].(lastPositiveProfitAt := Some(now))])
    else r
  }

  function SubmitRanked(
    s: State, operator: Account, id: RankedJobId, v: VersionId, result: string, proof: string, valid: bool
  ): Outcome
  {
    if id !in s.work.jobs || !s.work.jobs[id].status.Open? then Raised(s, NotOpen)
    else
      var a := s.work.jobs[id].authorization;
      if s.now > a.deadline then Raised(s, DeadlinePassed)
      else if v !in s.registry.versions then Raised(s, VersionNotFound)
      else if v.operator != operator then Raised(s, NotOperator)
      else if !s.registry.versions[v].status.Live() then Raised(s, NotLive)
      else if !FreshHeartbeat(s.registry.versions[v], s.now) then Raised(s, HeartbeatTooOld)
      else if !valid then Raised(s, ObjectiveProofRejected)
      else if result != a.expectedResult then Raised(s, WrongResult)
      else if proof == "" then Raised(s, ProofRequired)
      else if proof in s.work.proofs then Raised(s, ProofReplay)
      else if Get(s.bank.vaults, v) < a.verifiedCost then Raised(s, InsufficientVault)
      else Settle(s, id, v, result, proof)
  }

  function CloseJob(w: Work, id: RankedJobId, status: RankedStatus): Work
    requires id in w.jobs
  {
    PutRankedJob(w, id, w.jobs[id].(status := status))
  }

  // Result, cost, provider payment and reward land together. The missing
  // recipient is the source's internal assertion, hit halfway through.
  function Settle(s: State, id: RankedJobId, v: VersionId, result: string, proof: string): Outcome
    requires id in s.work.jobs && v in s.registry.versions
  {
    var a := s.work.jobs[id].authorization;
    var e := EpochAt(s.now);
    var closed := CloseJob(s.work, id, Settled(v, e, result, proof)).(proofs := s.work.proofs + {proof});
    var released := s.bank.(commonsReserved := s.bank.commonsReserved - a.reward);
    if a.verifiedCost != 0 && a.costRecipient.None? then
      Raised(s.(work := closed, bank := released.(vaults := Bump(s.bank.vaults, v, -a.verifiedCost))),
             RecipientMissing)
    else
      var paid := if a.verifiedCost == 0 then released
                  else released.(
                    vaults := Bump(released.vaults, v, -a.verifiedCost),
                    wallets := Bump(released.wallets, a.costRecipient.value, a.verifiedCost));
      var booked := BookEconomy(closed, v, e, a.reward, a.verifiedCost);
      Done(s.(
        work := booked,
        bank := paid.(vaults := Bump(paid.vaults, v, a.reward)),
        registry := MarkProfit(s.registry, v, s.now, ProfitOf(booked.economies, v, e))))
  }

  function ExpireRanked(s: State, id: RankedJobId): Outcome {
    if id !in s.work.jobs || !s.work.jobs[id].status.Open? then Raised(s, NotOpen)
    else
      var a := s.work.jobs[id].authorization;
      if s.now <= a.deadline then Raised(s, DeadlineNotReached)
      else Done(s.(
        work := CloseJob(s.work, id, Expired),
        bank := s.bank.(
          commonsReserved := s.bank.commonsReserved - a.reward,
          commonsAvailable := s.bank.commonsAvailable + a.reward)))
  }

  // ---- market work ----

  function OpenMarket(
    s: State, buyer: Account, target: VersionId, specHash: string, reward: int, deadline: int, workVerifier: string
  ): Outcome
  {
    match BeneficiaryError(s.registry, target)
    case Some(e) => Raised(s, e)
    case None =>
      if reward <= 0 then Raised(s, AmountNotPositive)
      else if specHash == "" || deadline <= s.now then Raised(s, InvalidJob)
      else
        match DebitError(s.bank, buyer, reward)
        case Some(e) => Raised(s, e)
        case None =>
          var id := MarketJobId(buyer, target, specHash, reward, deadline, workVerifier, s.market.nonce);
          var job := MarketJob(buyer, target, specHash, reward, deadline, workVerifier, Offered);
          Done(s.(
            bank := s.bank.(
              wallets := Bump(s.bank.wallets, buyer, -reward),
              escrow := s.bank.escrow + reward),
            market := PutMarketJob(s.market, id, job).(nonce := s.market.nonce + 1)))
  }

  // The escrowed reward leaves for the beneficiary's vault, or for the commons.
  function PayMarket(s: State, id: MarketJobId, job: MarketJob, beneficiary: Option<VersionId>): State {
    var released := s.bank.(escrow := s.bank.escrow - job.reward);
    var closed := PutMarketJob(s.market, id, job);
    match beneficiary
    case None => s.(
      market := closed,
      bank := released.(commonsAvailable := released.commonsAvailable + job.reward))
    case Some(b) => s.(
      market := closed,
      bank := released.(vaults := Bump(released.vaults, b, job.reward)),
      tally := s.tally.(marketRevenue := Bump(s.tally.marketRevenue, b, job.reward)))
  }

  function OrElse(b: Option<VersionId>, v: VersionId): Option<VersionId> {
    if b.Some? then b else Some(v)
  }

  function SubmitMarket(s: State, operator: Account, id: MarketJobId, result: string, valid: bool): Outcome {
    if id !in s.market.jobs || !s.market.jobs[id].status.Offered? then Raised(s, NotOpen)
    else
      var job := s.market.jobs[id];
      if s.now > job.deadline then Raised(s, DeadlinePassed)
      else if result == "" then Raised(s, ResultRequired)
      else
        match BeneficiaryError(s.registry, job.target)
        case Some(e) => Raised(s, e)
        case None =>
          var performer := LiveBeneficiary(s.registry, job.target).value;
          if performer !in s.registry.versions then Raised(s, VersionNotFound)
          else if performer.operator != operator then Raised(s, NotOperator)
          else if !FreshHeartbeat(s.registry.versions[performer], s.now) then Raised(s, HeartbeatTooOld)
          else if job.workVerifier != "" && valid then
            Done(PayMarket(s, id, job.(status := Accepted(performer, result)),
                           OrElse(LiveBeneficiary(s.registry, performer), performer)))
          else
            Done(s.(market := PutMarketJob(s.market, id, job.(status := Submitted(performer, result)))))
  }

  function AcceptMarket(s: State, buyer: Account, id: MarketJobId): Outcome {
    if id !in s.market.jobs || !s.market.jobs[id].status.Submitted? then Raised(s, NotSubmitted)
    else
      var job := s.market.jobs[id];
      var performer := job.status.performer;
      var accepted := job.(status := Accepted(performer, job.status.resultHash));
      if buyer != job.buyer then Raised(s, NotBuyer)
      else if performer !in s.registry.versions then
        Raised(s.(market := PutMarketJob(s.market, id, accepted),
                  bank := s.bank.(escrow := s.bank.escrow - job.reward)),
               VersionNotFound)
      else
        Done(PayMarket(s, id, accepted, LiveBeneficiary(s.registry, performer)))
  }

  function RefundMarket(s: State, buyer: Account, id: MarketJobId): Outcome {
    if id !in s.market.jobs || !(s.market.jobs[id].status.Offered? || s.market.jobs[id].status.Submitted?)
    then Raised(s, NotRefundable)
    else
      var job := s.market.jobs[id];
      if buyer != job.buyer then Raised(s, NotBuyer)
      else if s.now <= job.deadline then Raised(s, DeadlineNotReached)
      else Done(s.(
        market := PutMarketJob(s.market, id, job.(status := Refunded)),
        bank := s.bank.(
          escrow := s.bank.escrow - job.reward,
          wallets := Bump(s.bank.wallets, buyer, job.reward))))
  }

  // ---- selection ----

  function Profits(economies: map<Period, Economy>, v: VersionId, end: int): seq<int> {
    ProfitsFrom(economies, v, end, 0)
  }

  function ProfitsFrom(economies: map<Period, Economy>, v: VersionId, end: int, i: nat): seq<int>
    decreases PROFIT_WINDOW_EPOCHS - i
  {
    if i >= PROFIT_WINDOW_EPOCHS then []
    else (if end - i >= 0 then [ProfitOf(economies, v, end - i)] else [])
         + ProfitsFrom(economies, v, end, i + 1)
  }

  function MedianProfit(economies: map<Period, Economy>, v: VersionId, end: int): int {
    Median(Profits(economies, v, end))
  }

  // The window spelled out.
  lemma ProfitsWindow(economies: map<Period, Economy>, v: VersionId, end: int)
    ensures Profits(economies, v, end)
            == if end >= 2 then
                 [ProfitOf(economies, v, end), ProfitOf(economies, v, end - 1), ProfitOf(economies, v, end - 2)]
               else if end == 1 then [ProfitOf(economies, v, 1), ProfitOf(economies, v, 0)]
               else if end == 0 then [ProfitOf(economies, v, 0)]
               else []
  {
    hide ProfitOf;
    assert ProfitsFrom(economies, v, end, 3) == [];
    assert ProfitsFrom(economies, v, end, 2) == if end >= 2 then [ProfitOf(economies, v, end - 2)] else [];
    assert ProfitsFrom(economies, v, end, 1)
      == (if end >= 1 then [ProfitOf(economies, v, end - 1)] else []) + ProfitsFrom(economies, v, end, 2);
  }

  // The metric two versions are compared by.
  function Metric(economies: map<Period, Economy>, v: VersionId, e: int, useMedian: bool): int {
    if useMedian then MedianProfit(economies, v, e) else ProfitOf(economies, v, e)
  }

  function ChallengeError(s: State, challenger: VersionId, epoch: int, useMedian: bool): Option<Error> {
    if EpochError(s, epoch).Some? then EpochError(s, epoch)
    else if challenger !in s.registry.versions then Some(VersionNotFound)
    else if !s.registry.versions[challenger].status.Incubating? then Some(NotIncubating)
    else if !FreshHeartbeat(s.registry.versions[challenger], s.now) then Some(HeartbeatTooOld)
    else
      match ActiveIn(s.registry, challenger.lineage)
      case None => Some(NoIncumbent)
      case Some(incumbent) =>
        if incumbent == challenger then Some(SameVersion)
        else if incumbent !in s.registry.versions then Some(VersionNotFound)
        else if incumbent.lineage != challenger.lineage then Some(DifferentLineage)
        else if EconomyOf(s.work.economies, challenger, epoch).revenue == 0 then Some(NoRankedRevenue)
        else if Metric(s.work.economies, challenger, epoch, useMedian) <= 0 then Some(NoPositiveProfit)
        else if Metric(s.work.economies, challenger, epoch, useMedian)
                <= Metric(s.work.economies, incumbent, epoch, useMedian) then Some(NotMoreProfitable)
        else None
  }

  function Crown(r: Registry, incumbent: VersionId, challenger: VersionId): Registry
    requires incumbent in r.versions && challenger in r.versions
  {
    WithStatus(WithStatus(r, incumbent, Superseded(challenger)), challenger, Active)
      .(active := r.active[challenger.lineage := Some(challenger)])
  }

  function Promote(s: State, incumbent: VersionId, challenger: VersionId): State
    requires incumbent in s.registry.versions && challenger in s.registry.versions
  {
    var inherited := Get(s.bank.vaults, incumbent);
    s.(bank := s.bank.(vaults := Bump(Bump(s.bank.vaults, incumbent, -inherited), challenger, inherited)),
       registry := Crown(s.registry, incumbent, challenger))
  }

  function ExecuteSupersede(s: State, challenger: VersionId, epoch: int, useMedian: bool): Outcome {
    match ChallengeError(s, challenger, epoch, useMedian)
    case Some(e) => Raised(s, e)
    case None => Done(Promote(s, ActiveIn(s.registry, challenger.lineage).value, challenger))
  }

  function Supersede(s: State, challenger: VersionId, epoch: int): Outcome {
    ExecuteSupersede(s, challenger, epoch, false)
  }

  function CommitSupersede(s: State, challenger: VersionId, epoch: int, salt: string): Outcome {
    var id := CommitId(challenger, epoch, salt);
    match EpochError(s, epoch)
    case Some(e) => Raised(s, e)
    case None =>
      if salt == "" then Raised(s, SaltRequired)
      else if id in s.commits.made then Raised(s, CommitExists)
      else if challenger !in s.registry.versions then Raised(s, VersionNotFound)
      else Done(s.(commits := s.commits.(made := s.commits.made[id := Commit(challenger, epoch, s.now)])))
  }

  function RevealSupersede(s: State, challenger: VersionId, epoch: int, salt: string): Outcome {
    var id := CommitId(challenger, epoch, salt);
    match EpochError(s, epoch)
    case Some(e) => Raised(s, e)
    case None =>
      if id !in s.commits.made then Raised(s, NoCommit)
      else if id in s.commits.revealed then Raised(s, AlreadyRevealed)
      else if s.now < s.commits.made[id].committedAt + COMMIT_PHASE_BLOCKS then Raised(s, RevealTooEarly)
      else
        var consumed := s.(commits := s.commits.(revealed := s.commits.revealed + {id}));
        ExecuteSupersede(consumed, challenger, epoch, true)
  }

  // A version that can inherit from a stale one.
  predicate Heir(s: State, v: VersionId) {
    && v in s.registry.versions
    && s.registry.versions[v].status.Incubating?
    && (s.registry.versions[v].lastPositiveProfitAt.Some? || ProfitOf(s.work.economies, v, EpochAt(s.now)) > 0)
  }

  // Whether candidate i qualifies, and none before it does.
  ghost predicate FirstAt(s: State, stale: VersionId, candidates: seq<VersionId>, i: nat) {
    && i < |candidates| && candidates[i] != stale && Heir(s, candidates[i])
    && forall j: nat | j < i :: candidates[j] == stale || !Heir(s, candidates[j])
  }

  // The first heir in registration order, other than the stale version.
  function FirstHeir(s: State, stale: VersionId, candidates: seq<VersionId>): (r: Option<VersionId>)
    ensures r.None? ==> forall v | v in candidates && v != stale :: !Heir(s, v)
    ensures r.Some? ==> exists i: nat :: FirstAt(s, stale, candidates, i) && r.value == candidates[i]
  {
    hide Heir;
    if candidates == [] then None
    else if candidates[0] != stale && Heir(s, candidates[0]) then
      assert FirstAt(s, stale, candidates, 0);
      Some(candidates[0])
    else
      var r := FirstHeir(s, stale, candidates[1..]);
      assert r.Some? ==> exists i: nat :: FirstAt(s, stale, candidates, i) && r.value == candidates[i] by {
        if r.Some? {
          var i: nat :| FirstAt(s, stale, candidates[1..], i) && r.value == candidates[1..][i];
          assert FirstAt(s, stale, candidates, i + 1);
        }
      }
      r
  }

  function StaleReference(v: Version): int {
    if v.lastPositiveProfitAt.Some? then v.lastPositiveProfitAt.value else v.createdAt
  }

  // Half of what a stale version held goes to its heir, the rest to the commons.
  function Bequeath(b: Bank, stale: VersionId, total: int, heir: Option<VersionId>): Bank {
    var emptied := Bump(b.vaults, stale, -total);
    if heir.Some? && total > 0 then
      var share := total / 2;
      b.(vaults := Bump(emptied, heir.value, share), commonsAvailable := b.commonsAvailable + (total - share))
    else
      b.(vaults := emptied, commonsAvailable := b.commonsAvailable + total)
  }

  function Retire(r: Registry, v: VersionId): Registry
    requires v in r.versions
  {
    var retired := WithStatus(r, v, Stale);
    if ActiveIn(r, v.lineage) == Some(v) then retired.(active := r.active[v.lineage := None]) else retired
  }

  function EjectStale(s: State, v: VersionId): Outcome {
    if v !in s.registry.versions then Raised(s, VersionNotFound)
    else if !s.registry.versions[v].status.Live() then Raised(s, NotLive)
    else if s.now <= StaleReference(s.registry.versions[v]) + STALE_AFTER then Raised(s, NotStale)
    else
      var total := Get(s.bank.vaults, v);
      var heir := FirstHeir(s, v, MembersOf(s.registry, v.lineage));
      Done(SlashIfUnprofitable(s, v).(
        bank := Bequeath(s.bank, v, total, heir),
        registry := Retire(s.registry, v)))
  }

  function Claim(r: Registry, v: VersionId): Registry
    requires v in r.versions
  {
    WithStatus(r, v, Active).(active := r.active[v.lineage := Some(v)])
  }

  function ClaimVacancy(s: State, v: VersionId, epoch: int): Outcome {
    if EpochError(s, epoch).Some? then Raised(s, EpochError(s, epoch).value)
    else if v !in s.registry.versions then Raised(s, VersionNotFound)
    else if !s.registry.versions[v].status.Incubating? then Raised(s, NotIncubating)
    else if ActiveIn(s.registry, v.lineage).Some? then Raised(s, ActiveExists)
    else if !FreshHeartbeat(s.registry.versions[v], s.now) then Raised(s, HeartbeatTooOld)
    else if !Profitable(s.work.economies, v, epoch) then Raised(s, NoPositiveProfit)
    else Done(s.(registry := Claim(s.registry, v)))
  }
}
