// Double entry: in a reachable state every call moves money between the places
// its contract names, by the amounts it names, and touches no other place.
module MoneyFlow {
  import opened Options
  import opened Totals
  import opened ArenaTypes
  import S = ArenaSpec
  import opened Runs
  import opened Conservation
  import opened Lineages
  import opened Chronology
  import opened Provenance
  import opened Safety
  import opened Bonds
  import opened Raises
  import opened Demands

  datatype Place =
    | Outside | Wallet(owner: Account) | Vault(holder: VersionId) | Commons | Reserve | Escrow | Surplus

  function Holding(s: State, p: Place): int {
    match p
    case Outside => -s.bank.minted
    case Wallet(x) => Get(s.bank.wallets, x)
    case Vault(v) => Get(s.bank.vaults, v)
    case Commons => s.bank.commonsAvailable
    case Reserve => s.bank.commonsReserved
    case Escrow => s.bank.escrow
    case Surplus => s.bank.surplus
  }

  datatype Move = Move(from: Place, to: Place, amount: int)

  function Net(m: Move, p: Place): int {
    (if p == m.to then m.amount else 0) - (if p == m.from then m.amount else 0)
  }

  // No call makes more than two moves.
  function NetOf(moves: seq<Move>, p: Place): int {
    (if |moves| > 0 then Net(moves[0], p) else 0) + (if |moves| > 1 then Net(moves[1], p) else 0)
  }

  ghost predicate Moved(s: State, t: State, moves: seq<Move>) {
    |moves| <= 2 && forall p :: Holding(t, p) == Holding(s, p) + NetOf(moves, p)
  }

  lemma PlaceByPlace(s: State, t: State, moves: seq<Move>)
    requires Moved(s, t, moves)
    ensures forall x :: Get(t.bank.wallets, x) == Get(s.bank.wallets, x) + NetOf(moves, Wallet(x))
    ensures forall v :: Get(t.bank.vaults, v) == Get(s.bank.vaults, v) + NetOf(moves, Vault(v))
    ensures t.bank.commonsAvailable == s.bank.commonsAvailable + NetOf(moves, Commons)
    ensures t.bank.commonsReserved == s.bank.commonsReserved + NetOf(moves, Reserve)
  {
    hide NetOf;
    forall x ensures Get(t.bank.wallets, x) == Get(s.bank.wallets, x) + NetOf(moves, Wallet(x)) {
      assert Holding(t, Wallet(x)) == Holding(s, Wallet(x)) + NetOf(moves, Wallet(x));
    }
    forall v ensures Get(t.bank.vaults, v) == Get(s.bank.vaults, v) + NetOf(moves, Vault(v)) {
      assert Holding(t, Vault(v)) == Holding(s, Vault(v)) + NetOf(moves, Vault(v));
    }
    assert Holding(t, Commons) == Holding(s, Commons) + NetOf(moves, Commons);
    assert Holding(t, Reserve) == Holding(s, Reserve) + NetOf(moves, Reserve);
  }

  // ---- who inherits from a stale version ----

  predicate Inherits(s: State, stale: VersionId, v: VersionId) {
    v != stale && Incubates(s, v) && s.registry.versions[v].lastPositiveProfitAt.Some?
  }

  // The first member in registration order that has ever shown profit.
  ghost predicate FirstInLine(s: State, stale: VersionId, i: nat) {
    var members := MembersOf(s.registry, stale.lineage);
    && i < |members|
    && Inherits(s, stale, members[i])
    && forall j: nat | j < i :: !Inherits(s, stale, members[j])
  }

  ghost predicate NobodyInLine(s: State, stale: VersionId) {
    forall v | v in MembersOf(s.registry, stale.lineage) :: !Inherits(s, stale, v)
  }

  // ---- the moves of each call that returns ----

  function MoneyMoves(s: State, c: MoneyCall): seq<Move> {
    match c
    case Mint(x, n) => [Move(Outside, Wallet(x), n)]
    case FundCommons(x, n) => [Move(Wallet(x), Commons, n)]
    case DirectTransfer(x, n) => [Move(Wallet(x), Surplus, n)]
    case AbsorbSurplus => [Move(Surplus, Commons, s.bank.surplus)]
    case Donate(x, v, n) =>
      var b := Recipient(s.registry, v);
      if b.Some? then [Move(Wallet(x), Vault(b.value), n)] else []
    case SettleExpense(_, v, _, to, n, _, _, _, _) => [Move(Vault(v), Wallet(to), n)]
    case _ => []
  }

  function RegistryMoves(s: State, c: RegistryCall): seq<Move> {
    match c
    case CreateLineage(operator, _, _, _, _, funder, _, _) => [Move(Wallet(Funder(funder, operator)), Commons, 1_000)]
    case RegisterVersion(_, _, operator, _, _, _, _, funder, _, _) =>
      [Move(Wallet(Funder(funder, operator)), Commons, 1_000)]
    case ReclaimBond(operator, v) => [Move(Commons, Wallet(operator), Get(s.bonds.amount, v))]
    case Heartbeat(_, v, _, _) => [Move(Vault(v), Commons, 1)]
  }

  function RankedMoves(s: State, c: RankedCall): seq<Move> {
    match c
    case AuthorizeJob(_, _) => []
    case CreateRankedJob(a) => [Move(Commons, Reserve, a.reward)]
    case SubmitRanked(_, id, v, _, _, _) =>
      var a := id.authorization;
      var won := Move(Reserve, Vault(v), a.reward);
      if a.costRecipient.None? then [won] else [Move(Vault(v), Wallet(a.costRecipient.value), a.verifiedCost), won]
    case ExpireRanked(id) => [Move(Reserve, Commons, id.authorization.reward)]
  }

  function MarketMoves(s: State, c: MarketCall): seq<Move> {
    match c
    case OpenMarket(buyer, _, _, reward, _, _) => [Move(Wallet(buyer), Escrow, reward)]
    case SubmitMarket(_, id, _, valid) =>
      if id !in s.market.jobs then []
      else
        var job := s.market.jobs[id];
        var b := Recipient(s.registry, job.target);
        if job.workVerifier != "" && valid && b.Some? then [Move(Escrow, Vault(b.value), job.reward)] else []
    case AcceptMarket(_, id) =>
      if id !in s.market.jobs || !s.market.jobs[id].status.Submitted? then []
      else
        var job := s.market.jobs[id];
        var b := Recipient(s.registry, job.status.performer);
        [Move(Escrow, if b.Some? then Vault(b.value) else Commons, job.reward)]
    case RefundMarket(_, id) =>
      if id !in s.market.jobs then [] else [Move(Escrow, Wallet(s.market.jobs[id].buyer), s.market.jobs[id].reward)]
  }

  function ChallengeMoves(s: State, c: VersionId): seq<Move> {
    match ActiveIn(s.registry, c.lineage)
    case None => []
    case Some(incumbent) => [Move(Vault(incumbent), Vault(c), Get(s.bank.vaults, incumbent))]
  }

  // Half of a stale vault, rounded down, for whoever is first in line, the rest
  // for the commons.
  ghost function EjectionMoves(s: State, v: VersionId): seq<Move> {
    var total := Get(s.bank.vaults, v);
    if i: nat :| FirstInLine(s, v, i) then
      [Move(Vault(v), Vault(MembersOf(s.registry, v.lineage)[i]), total / 2),
       Move(Vault(v), Commons, total - total / 2)]
    else [Move(Vault(v), Commons, total)]
  }

  ghost function MovesOf(s: State, a: Action): seq<Move> {
    match a
    case OnMoney(c) => MoneyMoves(s, c)
    case OnRegistry(c) => RegistryMoves(s, c)
    case OnRanked(c) => RankedMoves(s, c)
    case OnMarket(c) => MarketMoves(s, c)
    case OnSelection(Supersede(c, _)) => ChallengeMoves(s, c)
    case OnSelection(RevealSupersede(c, _, _)) => ChallengeMoves(s, c)
    case OnSelection(EjectStale(v)) => EjectionMoves(s, v)
    case _ => []
  }

  // A call that raises moves money only when it leaves a bond behind.
  function LostMoves(trace: Trace): seq<Move> {
    match trace
    case BondLeft(funder, _) => [Move(Wallet(funder), Commons, 1_000)]
    case _ => []
  }

  // ---- proofs, family by family ----

  lemma BumpGet<K(!new)>(m: map<K, int>, k: K, n: int)
    ensures forall x :: Get(Bump(m, k, n), x) == Get(m, x) + (if x == k then n else 0)
  {
  }

  lemma MoneyFlows(s: State, c: MoneyCall)
    requires Pointed(s.registry)
    ensures MoneyStep(s, c).Done? ==> Moved(s, MoneyStep(s, c).state, MoneyMoves(s, c))
    ensures MoneyStep(s, c).Raised? ==> MoneyStep(s, c).state == s
  {
    hide Pointed, Sum, S.SignatureError, S.LiveBeneficiary, Recipient;
    ReachesExactly(s);
  }

  lemma RegistryFlows(s: State, c: RegistryCall)
    ensures RegistryStep(s, c).Done? ==> Moved(s, RegistryStep(s, c).state, RegistryMoves(s, c))
  {
    hide Sum, S.DeclarationError, S.SignerError, S.Found, S.Enroll, S.Beat, S.Profitable, EpochAt;
  }

  lemma SettleFlows(s: State, id: RankedJobId, v: VersionId, result: string, proof: string)
    requires Scheduled(s.work) && id in s.work.jobs && v in s.registry.versions
    ensures var o := S.Settle(s, id, v, result, proof);
            o.Done? && Moved(s, o.state, RankedMoves(s, SubmitRanked("", id, v, result, proof, true)))
  {
    hide Sum, SumBy, S.MarkProfit, S.CloseJob, BookEconomy, EpochAt, ProfitOf;
  }

  lemma RankedFlows(s: State, c: RankedCall)
    requires Scheduled(s.work)
    ensures RankedStep(s, c).Done? ==> Moved(s, RankedStep(s, c).state, RankedMoves(s, c))
  {
    hide Sum, SumBy, S.Settle, PutRankedJob, S.CloseJob, FreshHeartbeat;
    if c.SubmitRanked? && c.job in s.work.jobs && c.version in s.registry.versions {
      SettleFlows(s, c.job, c.version, c.result, c.proof);
    }
  }

  lemma MarketFlows(s: State, c: MarketCall)
    requires Pointed(s.registry) && Escrowed(s.market, s.registry)
    ensures MarketStep(s, c).Done? ==> Moved(s, MarketStep(s, c).state, MarketMoves(s, c))
  {
    hide Pointed, Sum, SumBy, S.LiveBeneficiary, Recipient, PutMarketJob, FreshHeartbeat;
    ReachesExactly(s);
    if c.SubmitMarket? && c.job in s.market.jobs && Recipient(s.registry, s.market.jobs[c.job].target).Some? {
      RecipientLives(s.registry, s.market.jobs[c.job].target);
    }
  }

  lemma ChallengeFlows(s: State, c: VersionId, e: int, useMedian: bool)
    ensures var o := S.ExecuteSupersede(s, c, e, useMedian);
            o.Done? ==> Moved(s, o.state, ChallengeMoves(s, c))
  {
    hide Sum, S.Metric, S.EpochError, FreshHeartbeat, S.Crown, EconomyOf;
  }

  // In a dated state whoever is in profit now has shown it before.
  lemma HeirsInherit(s: State, stale: VersionId)
    requires Dated(s.registry, s.work.economies, s.now)
    ensures forall x :: x != stale && S.Heir(s, x) <==> Inherits(s, stale, x)
  {
    hide Booked, EpochAt, EconomyOf;
    forall x ensures x != stale && S.Heir(s, x) <==> Inherits(s, stale, x) {
      if ProfitOf(s.work.economies, x, EpochAt(s.now)) > 0 {
      }
    }
  }

  lemma HeirInLine(s: State, v: VersionId)
    requires Dated(s.registry, s.work.economies, s.now)
    ensures var members := MembersOf(s.registry, v.lineage);
            var heir := S.FirstHeir(s, v, members);
            && (heir.None? ==> NobodyInLine(s, v))
            && (heir.Some? ==> exists i: nat :: FirstInLine(s, v, i) && heir.value == members[i])
  {
    hide S.Heir, Inherits, Dated, MembersOf, S.FirstHeir;
    HeirsInherit(s, v);
    var members := MembersOf(s.registry, v.lineage);
    var heir := S.FirstHeir(s, v, members);
    if heir.Some? {
      var i: nat :| S.FirstAt(s, v, members, i) && heir.value == members[i];
      assert FirstInLine(s, v, i);
    }
  }

  lemma OneInLine(s: State, v: VersionId, i: nat, j: nat)
    requires FirstInLine(s, v, i) && FirstInLine(s, v, j)
    ensures i == j
  {
    hide Inherits;
  }

  lemma EjectionFlows(s: State, v: VersionId)
    requires Dated(s.registry, s.work.economies, s.now) && NonNegative(s.bank.vaults)
    ensures S.EjectStale(s, v).Done? ==> Moved(s, S.EjectStale(s, v).state, EjectionMoves(s, v))
  {
    hide Dated, Sum, S.FirstHeir, FirstInLine, MembersOf, S.Retire, S.Profitable, S.StaleReference, EpochAt;
    HeirInLine(s, v);
    forall i: nat, j: nat | FirstInLine(s, v, i) && FirstInLine(s, v, j) ensures i == j {
      OneInLine(s, v, i, j);
    }
    assert (exists i: nat :: FirstInLine(s, v, i)) ==> !NobodyInLine(s, v) by { LineOrNobody(s, v); }
  }

  lemma LineOrNobody(s: State, v: VersionId)
    ensures (exists i: nat :: FirstInLine(s, v, i)) ==> !NobodyInLine(s, v)
  {
    hide Inherits;
  }

  lemma SelectionFlows(s: State, c: SelectionCall)
    requires Dated(s.registry, s.work.economies, s.now) && NonNegative(s.bank.vaults)
    ensures SelectionStep(s, c).Done? ==> Moved(s, SelectionStep(s, c).state, MovesOf(s, OnSelection(c)))
  {
    hide Dated, S.ExecuteSupersede, ChallengeMoves, S.EjectStale, EjectionMoves, S.EpochError, S.Claim, S.Profitable,
      FreshHeartbeat;
    match c
    case Supersede(v, e) => ChallengeFlows(s, v, e, false);
    case RevealSupersede(v, e, salt) =>
      var consumed := s.(commits := s.commits.(revealed := s.commits.revealed + {CommitId(v, e, salt)}));
      ChallengeFlows(consumed, v, e, true);
      assert ChallengeMoves(consumed, v) == ChallengeMoves(s, v) by { MovesIgnoreCommits(s, consumed.commits, v); }
    case EjectStale(v) => EjectionFlows(s, v);
    case _ =>
  }

  lemma MovesIgnoreCommits(s: State, commits: Commits, v: VersionId)
    ensures ChallengeMoves(s.(commits := commits), v) == ChallengeMoves(s, v)
  {
  }

  lemma LostFlows(s: State, trace: Trace)
    ensures Moved(s, Leave(s, trace), LostMoves(trace))
  {
    hide Sum, EpochAt;
  }

  // In every reachable state, whatever is called: the places named gain and lose
  // what is named, and all other places keep what they hold.
  lemma EveryMoveIsNamed(start: int, run: seq<Action>, a: Action)
    ensures var s := WorldAfter(start, run).state;
            Moved(s, Next(s, a), if Demand(s, a).None? then MovesOf(s, a) else LostMoves(TraceOf(s, a)))
  {
    hide WorldAfter, MoneyStep, RegistryStep, RankedStep, MarketStep, SelectionStep, Demand, TraceOf, Leave, ErrorFits,
      MoneyMoves, RegistryMoves, RankedMoves, MarketMoves, EjectionMoves, ChallengeMoves, LostMoves, Moved, Scheduled,
      Escrowed, Enrolled, Pointed, Chained, OnlyLiveHold, Dated, Committed, Capped, DaysAddUp, Sourced;
    ReachableSound(start, run);
    var s := WorldAfter(start, run).state;
    DemandsExact(start, run, a);
    RaiseLeaves(s, a);
    LostFlows(s, TraceOf(s, a));
    match a
    case OnMoney(c) => MoneyFlows(s, c);
    case OnRegistry(c) => RegistryFlows(s, c);
    case OnRanked(c) => RankedFlows(s, c);
    case OnMarket(c) => MarketFlows(s, c);
    case OnSelection(c) => SelectionFlows(s, c);
  }

  // ---- what is counted ----

  datatype Count =
    | Given(receiver: VersionId) | Sold(seller: VersionId) | Spent(spender: VersionId) | SpentOn(day: SpendDay) | Burned

  function Counted(s: State, n: Count): int {
    match n
    case Given(v) => Get(s.tally.capitalIn, v)
    case Sold(v) => Get(s.tally.marketRevenue, v)
    case Spent(v) => Get(s.tally.operatingSpent, v)
    case SpentOn(day) => Get(s.tally.dailyExpense, day)
    case Burned => s.tally.burned
  }

  // What a call that returns adds to a count: gifts and sales to what their
  // recipient got, expenses to the version and its day, heartbeats to the burn.
  function Added(s: State, a: Action, n: Count): int {
    match a
    case OnMoney(Donate(_, v, amount)) =>
      var b := Recipient(s.registry, v);
      if b.Some? && n == Given(b.value) then amount else 0
    case OnMoney(SettleExpense(_, v, _, _, amount, _, _, _, _)) =>
      if n == Spent(v) || n == SpentOn(SpendDay(v, s.now / 86_400)) then amount else 0
    case OnRegistry(Heartbeat(_, _, _, _)) => if n == Burned then 1 else 0
    case OnMarket(c) =>
      var moves := MarketMoves(s, c);
      if moves != [] && moves[0].to.Vault? && n == Sold(moves[0].to.holder) then moves[0].amount else 0
    case _ => 0
  }

  lemma MoneyAdds(s: State, c: MoneyCall, n: Count)
    requires Pointed(s.registry)
    ensures MoneyStep(s, c).Done? ==> Counted(MoneyStep(s, c).state, n) == Counted(s, n) + Added(s, OnMoney(c), n)
  {
    hide Pointed, Sum, S.SignatureError, S.LiveBeneficiary, Recipient, S.DebitError;
    ReachesExactly(s);
  }

  lemma MarketAdds(s: State, c: MarketCall, n: Count)
    requires Pointed(s.registry) && Escrowed(s.market, s.registry)
    ensures MarketStep(s, c).Done? ==> Counted(MarketStep(s, c).state, n) == Counted(s, n) + Added(s, OnMarket(c), n)
  {
    hide Pointed, Sum, SumBy, S.LiveBeneficiary, Recipient, PutMarketJob, FreshHeartbeat, S.DebitError;
    ReachesExactly(s);
    if c.SubmitMarket? && c.job in s.market.jobs && Recipient(s.registry, s.market.jobs[c.job].target).Some? {
      RecipientLives(s.registry, s.market.jobs[c.job].target);
    }
  }

  lemma RegistryAdds(s: State, c: RegistryCall, n: Count)
    ensures RegistryStep(s, c).Done? ==>
              Counted(RegistryStep(s, c).state, n) == Counted(s, n) + Added(s, OnRegistry(c), n)
  {
    hide Sum, S.DeclarationError, S.SignerError, S.Found, S.Enroll, S.Beat, S.Profitable, EpochAt, Bump;
  }

  lemma LostAddNothing(s: State, trace: Trace, n: Count)
    ensures Counted(Leave(s, trace), n) == Counted(s, n)
  {
    hide Bump, EpochAt;
  }

  lemma EveryCountIsNamed(start: int, run: seq<Action>, a: Action, n: Count)
    ensures var s := WorldAfter(start, run).state;
            Counted(Next(s, a), n) == Counted(s, n) + if Demand(s, a).None? then Added(s, a, n) else 0
  {
    hide WorldAfter, MoneyStep, RegistryStep, RankedStep, MarketStep, SelectionStep, Demand, TraceOf, Leave, ErrorFits,
      MarketMoves, Scheduled, Escrowed, Enrolled, Pointed, Chained, OnlyLiveHold, Dated, Committed, Capped, DaysAddUp,
      Sourced;
    ReachableSound(start, run);
    var s := WorldAfter(start, run).state;
    DemandsExact(start, run, a);
    RaiseLeaves(s, a);
    LostAddNothing(s, TraceOf(s, a), n);
    match a
    case OnMoney(c) => MoneyAdds(s, c, n);
    case OnRegistry(c) => RegistryAdds(s, c, n);
    case OnRanked(c) => RankedFrame(s, c);
    case OnMarket(c) => MarketAdds(s, c, n);
    case OnSelection(c) => SelectionFrame(s, c);
  }
}
