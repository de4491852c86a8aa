// Entities and state of the arena protocol model.
module ArenaTypes {
  import opened Options
  import opened Totals

  const DAY := 86_400
  const EPOCH_LENGTH := 7 * DAY
  const STALE_AFTER := 30 * DAY
  const HEARTBEAT_GRACE := 2 * 60 * 60
  const TOP_ROUTING_COUNT := 3
  const REQUIRED_LICENSE := "AGPL-3.0-or-later"
  const VERSION_BOND := 1_000
  const DAILY_EXPENSE_CAP := 50_000
  const HEARTBEAT_BURN := 1
  const PROFIT_WINDOW_EPOCHS := 3
  const COMMIT_PHASE_BLOCKS := 4
  const SOURCE_URI_LIMIT := 256

  type Account = string

  datatype Declaration = Declaration(
    sourceDigest: string,
    imageDigest: string,
    provenanceDigest: string,
    runtimeIdentity: string,
    sourceUri: string)

  // Identifiers are terms over the fields that the protocol hashes, so two
  // identifiers are equal exactly when their preimages are.
  datatype LineageId = LineageId(operator: Account, sourceDigest: string, salt: string)

  datatype VersionId = VersionId(
    lineage: LineageId,
    parent: Option<VersionId>,
    operator: Account,
    declaration: Declaration,
    salt: string)

  datatype CommitId = CommitId(challenger: VersionId, epoch: int, salt: string)

  datatype Status = Incubating | Active | Superseded(successor: VersionId) | Stale
  {
    predicate Live() { Incubating? || Active? }
  }

  // Lineage, parent, operator and declaration are part of the identifier.
  datatype Version = Version(
    createdAt: int,
    lastHeartbeat: int,
    lastPositiveProfitAt: Option<int>,
    status: Status,
    signers: seq<Account>,
    threshold: int)

  datatype Economy = Economy(revenue: int, cost: int)
  {
    function Profit(): int { revenue - cost }
  }

  datatype Period = Period(version: VersionId, epoch: int)
  datatype SpendDay = SpendDay(version: VersionId, day: int)

  // An entry of the precommitted schedule; the term is its own identifier.
  datatype Authorization = Authorization(
    specHash: string,
    verifier: string,
    reward: int,
    deadline: int,
    expectedResult: string,
    verifiedCost: int,
    costRecipient: Option<Account>,
    verifierSet: seq<string>)

  datatype RankedStatus =
    | Open
    | Settled(winner: VersionId, epoch: int, resultHash: string, proof: string)
    | Expired

  datatype RankedJobId = RankedJobId(authorization: Authorization, nonce: int)
  datatype RankedJob = RankedJob(authorization: Authorization, status: RankedStatus)

  datatype MarketStatus =
    | Offered
    | Submitted(performer: VersionId, resultHash: string)
    | Accepted(performer: VersionId, resultHash: string)
    | Refunded

  datatype MarketJobId = MarketJobId(
    buyer: Account,
    target: VersionId,
    specHash: string,
    reward: int,
    deadline: int,
    workVerifier: string,
    nonce: int)

  datatype MarketJob = MarketJob(
    buyer: Account,
    target: VersionId,
    specHash: string,
    reward: int,
    deadline: int,
    workVerifier: string,
    status: MarketStatus)

  datatype Commit = Commit(challenger: VersionId, epoch: int, committedAt: int)

  datatype Registry = Registry(
    versions: map<VersionId, Version>,
    active: map<LineageId, Option<VersionId>>,
    members: map<LineageId, seq<VersionId>>)

  datatype Bank = Bank(
    wallets: map<Account, int>,
    vaults: map<VersionId, int>,
    commonsAvailable: int,
    commonsReserved: int,
    escrow: int,
    surplus: int,
    minted: int)

  datatype Tally = Tally(
    capitalIn: map<VersionId, int>,
    marketRevenue: map<VersionId, int>,
    operatingSpent: map<VersionId, int>,
    dailyExpense: map<SpendDay, int>,
    burned: int)

  datatype Bonds = Bonds(amount: map<VersionId, int>, epoch: map<VersionId, int>)

  datatype Work = Work(
    authorizations: set<Authorization>,
    used: set<Authorization>,
    jobs: map<RankedJobId, RankedJob>,
    nonce: int,
    economies: map<Period, Economy>,
    proofs: set<string>)

  datatype Market = Market(jobs: map<MarketJobId, MarketJob>, nonce: int)

  datatype Commits = Commits(made: map<CommitId, Commit>, revealed: set<CommitId>)

  datatype State = State(
    now: int,
    registry: Registry,
    bank: Bank,
    tally: Tally,
    bonds: Bonds,
    work: Work,
    market: Market,
    commits: Commits)

  datatype Error =
    | TimeBackwards | NoClosedEpoch | AmountNotPositive | InsufficientWallet
    | NoSurplus | VersionNotFound | NotLive | NotOperator | NoBeneficiary
    | InvalidExpenseProof | ProofReplay | InsufficientVault | InvalidExpenseMetadata
    | DailyCapExceeded | MultiSigRequired | UnknownSigner
    | WrongLicense | AttestationRejected | IncompleteDeclaration | NotIpfs | UriTooLong
    | LineageExists | LineageNotFound | ParentMismatch | VersionExists
    | InvalidThreshold | OperatorNotSigner
    | NoBond | BondLocked | NoPositiveProfit | CommonsInsufficient
    | StateHashRequired | InvalidHeartbeat | HeartbeatTooOld
    | DeadlinePassed | NegativeCost | RecipientRequired | InvalidJob
    | VerifierNotInSet | DuplicateVerifiers | NotScheduled | AuthorizationReplay
    | NotOpen | ObjectiveProofRejected | WrongResult | ProofRequired | RecipientMissing
    | DeadlineNotReached | ResultRequired | NotSubmitted | NotBuyer | NotRefundable
    | WrongEpoch | SaltRequired | CommitExists | NoCommit | AlreadyRevealed | RevealTooEarly
    | NotIncubating | NoIncumbent | SameVersion | DifferentLineage | NoRankedRevenue
    | NotMoreProfitable | NotStale | ActiveExists

  // A call returns, or raises and leaves behind whatever it had already written.
  datatype Outcome = Done(state: State) | Raised(state: State, error: Error)

  // ---- reads ----

  function EpochAt(now: int): int { now / EPOCH_LENGTH }

  function EpochStart(epoch: int): int { epoch * EPOCH_LENGTH }

  function DayAt(now: int): int { now / DAY }

  function EconomyOf(economies: map<Period, Economy>, v: VersionId, e: int): Economy {
    if Period(v, e) in economies then economies[Period(v, e)] else Economy(0, 0)
  }

  function ProfitOf(economies: map<Period, Economy>, v: VersionId, e: int): int {
    EconomyOf(economies, v, e).Profit()
  }

  lemma EconomyAfter(economies: map<Period, Economy>, p: Period, booked: Economy, v: VersionId, e: int)
    ensures EconomyOf(economies[p := booked], v, e) == if Period(v, e) == p then booked else EconomyOf(economies, v, e)
  {
  }

  function ActiveIn(r: Registry, l: LineageId): Option<VersionId> {
    if l in r.active then r.active[l] else None
  }

  function MembersOf(r: Registry, l: LineageId): seq<VersionId> {
    if l in r.members then r.members[l] else []
  }

  predicate IsLive(r: Registry, v: VersionId) {
    v in r.versions && r.versions[v].status.Live()
  }

  predicate FreshHeartbeat(v: Version, now: int) {
    now <= v.lastHeartbeat + HEARTBEAT_GRACE
  }

  function WithStatus(r: Registry, v: VersionId, status: Status): Registry
    requires v in r.versions
  {
    r.(versions := r.versions[v := r.versions[v].(status := status)])
  }

  // ---- weights ----

  function OpenReward(id: RankedJobId, job: RankedJob): int {
    if job.status.Open? then job.authorization.reward else 0
  }

  function HeldReward(id: MarketJobId, job: MarketJob): int {
    if job.status.Offered? || job.status.Submitted? then job.reward else 0
  }

  function RevenueWeight(p: Period, e: Economy): int { e.revenue }

  function CostWeight(p: Period, e: Economy): int { e.cost }

  ghost function OpenTotal(w: Work): int { SumBy(w.jobs, OpenReward) }

  ghost function HeldTotal(m: Market): int { SumBy(m.jobs, HeldReward) }

  ghost function RevenueTotal(w: Work): int { SumBy(w.economies, RevenueWeight) }

  ghost function CostTotal(w: Work): int { SumBy(w.economies, CostWeight) }

  // ---- writes whose effect on the totals is known ----

  function PutRankedJob(w: Work, id: RankedJobId, job: RankedJob): (r: Work)
    ensures OpenTotal(r) == OpenTotal(w) + OpenReward(id, job)
                            - (if id in w.jobs then OpenReward(id, w.jobs[id]) else 0)
  {
    SumByUpdate(w.jobs, OpenReward, id, job);
    w.(jobs := w.jobs[id := job])
  }

  function PutMarketJob(m: Market, id: MarketJobId, job: MarketJob): (r: Market)
    ensures HeldTotal(r) == HeldTotal(m) + HeldReward(id, job)
                            - (if id in m.jobs then HeldReward(id, m.jobs[id]) else 0)
  {
    SumByUpdate(m.jobs, HeldReward, id, job);
    m.(jobs := m.jobs[id := job])
  }

  function BookEconomy(w: Work, v: VersionId, e: int, revenue: int, cost: int): (r: Work)
    ensures RevenueTotal(r) == RevenueTotal(w) + revenue
    ensures CostTotal(r) == CostTotal(w) + cost
  {
    var before := EconomyOf(w.economies, v, e);
    var booked := Economy(before.revenue + revenue, before.cost + cost);
    SumByUpdate(w.economies, RevenueWeight, Period(v, e), booked);
    SumByUpdate(w.economies, CostWeight, Period(v, e), booked);
    w.(economies := w.economies[Period(v, e) := booked])
  }

  // A fresh arena: every table empty, every counter 0.
  function Init(start: int): State {
    State(start,
          Registry(map[], map[], map[]),
          Bank(map[], map[], 0, 0, 0, 0, 0),
          Tally(map[], map[], map[], map[], 0),
          Bonds(map[], map[]),
          Work({}, {}, map[], 0, map[], {}),
          Market(map[], 0),
          Commits(map[], {}))
  }
}
