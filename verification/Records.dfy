// What every call writes down, entry by entry: in a reachable state the entry a
// call names becomes what is said here, and every other entry stays.
module Records {
  import opened Options
  import opened Totals
  import opened ArenaTypes
  import S = ArenaSpec
  import opened Runs
  import opened Conservation
  import opened Lineages
  import opened Chronology
  import opened Provenance
  import opened Safety
  import opened Bonds
  import opened Raises
  import opened Demands

  function Find<K, V>(m: map<K, V>, k: K): Option<V> {
    if k in m then Some(m[k]) else None
  }

  // ---- versions ----

  function NewcomerOf(c: RegistryCall): Option<VersionId> {
    match c
    case CreateLineage(operator, d, salt, _, _, _, _, _) =>
      Some(VersionId(LineageId(operator, d.sourceDigest, salt), None, operator, d, salt))
    case RegisterVersion(l, parent, operator, d, salt, _, _, _, _, _) =>
      Some(VersionId(l, Some(parent), operator, d, salt))
    case _ => None
  }

  // A newcomer is active in a new lineage and incubates in an old one.
  function Newcomer(s: State, c: RegistryCall): Version
    requires NewcomerOf(c).Some?
  {
    Version(s.now, s.now, None, if c.CreateLineage? then Active else Incubating, Signers(c.signers, c.operator),
            c.threshold)
  }

  function RegistryWrites(s: State, c: RegistryCall, x: VersionId): Option<Version> {
    if NewcomerOf(c) == Some(x) then Some(Newcomer(s, c))
    else
      match Find(s.registry.versions, x)
      case None => None
      case Some(entry) => Some(if c.Heartbeat? && c.version == x then entry.(lastHeartbeat := s.now) else entry)
  }

  // The winner of ranked work is dated when its profit of the epoch is positive.
  function RankedWrites(s: State, c: RankedCall, x: VersionId): Option<Version> {
    match Find(s.registry.versions, x)
    case None => None
    case Some(entry) => Some(
      if c.SubmitRanked? && c.version == x && ProfitWith(s, c.job, x) > 0
      then entry.(lastPositiveProfitAt := Some(s.now)) else entry)
  }

  function ProfitWith(s: State, id: RankedJobId, v: VersionId): int {
    ProfitOf(s.work.economies, v, s.now / 604_800) + id.authorization.reward - id.authorization.verifiedCost
  }

  // The challenger that a call makes active, if it is a challenge.
  function ChallengerOf(c: SelectionCall): Option<VersionId> {
    match c
    case Supersede(v, _) => Some(v)
    case RevealSupersede(v, _, _) => Some(v)
    case _ => None
  }

  function SelectionStatus(s: State, c: SelectionCall, x: VersionId, status: Status): Status {
    match c
    case EjectStale(v) => if x == v then Stale else status
    case ClaimVacancy(v, _) => if x == v then Active else status
    case _ =>
      match ChallengerOf(c)
      case None => status
      case Some(v) =>
        if x == v then Active
        else if ActiveIn(s.registry, v.lineage) == Some(x) then Superseded(v)
        else status
  }

  function SelectionWrites(s: State, c: SelectionCall, x: VersionId): Option<Version> {
    match Find(s.registry.versions, x)
    case None => None
    case Some(entry) => Some(entry.(status := SelectionStatus(s, c, x, entry.status)))
  }

  function VersionAfter(s: State, a: Action, x: VersionId): Option<Version> {
    match a
    case OnRegistry(c) => RegistryWrites(s, c, x)
    case OnRanked(c) => RankedWrites(s, c, x)
    case OnSelection(c) => SelectionWrites(s, c, x)
    case _ => Find(s.registry.versions, x)
  }

  // ---- lineages ----

  function MembersAfter(s: State, a: Action, l: LineageId): seq<VersionId> {
    match a
    case OnRegistry(c) =>
      var x := NewcomerOf(c);
      MembersOf(s.registry, l) + if x.Some? && x.value.lineage == l then [x.value] else []
    case _ => MembersOf(s.registry, l)
  }

  function ActiveAfter(s: State, a: Action, l: LineageId): Option<VersionId> {
    var before := ActiveIn(s.registry, l);
    match a
    case OnRegistry(c) =>
      var x := NewcomerOf(c);
      if c.CreateLineage? && x.value.lineage == l then x else before
    case OnSelection(EjectStale(v)) => if before == Some(v) then None else before
    case OnSelection(ClaimVacancy(v, _)) => if v.lineage == l then Some(v) else before
    case OnSelection(c) =>
      var x := ChallengerOf(c);
      if x.Some? && x.value.lineage == l then x else before
    case _ => before
  }

  ghost predicate RegistryWritten(s: State, a: Action, t: State) {
    && (forall x :: Find(t.registry.versions, x) == VersionAfter(s, a, x))
    && (forall l :: MembersOf(t.registry, l) == MembersAfter(s, a, l))
    && (forall l :: ActiveIn(t.registry, l) == ActiveAfter(s, a, l))
  }

  lemma NothingWritten(s: State, a: Action)
    requires a.OnMoney? || a.OnMarket?
    ensures forall t: State :: t.registry == s.registry ==> RegistryWritten(s, a, t)
  {
  }

  lemma RegistryRecords(s: State, c: RegistryCall)
    ensures RegistryStep(s, c).Done? ==> RegistryWritten(s, OnRegistry(c), RegistryStep(s, c).state)
  {
    hide Sum, Bump, S.DeclarationError, S.SignerError, S.DebitError, S.Profitable, EpochAt;
    PoliciesAlike(c);
  }

  lemma PoliciesAlike(c: RegistryCall)
    ensures NewcomerOf(c).Some? ==> S.SignersOr(c.signers, c.operator) == Signers(c.signers, c.operator)
  {
  }

  lemma SettleRecords(s: State, id: RankedJobId, v: VersionId, result: string, proof: string, c: RankedCall)
    requires Scheduled(s.work) && id in s.work.jobs && v in s.registry.versions
    requires c.SubmitRanked? && c.job == id && c.version == v
    ensures var o := S.Settle(s, id, v, result, proof);
            o.Done? && RegistryWritten(s, OnRanked(c), o.state)
  {
    hide Sum, SumBy, Bump, ProfitOf, BookEconomy, S.CloseJob;
    ProfitGrows(s, id, v, result, proof);
  }

  lemma ProfitGrows(s: State, id: RankedJobId, v: VersionId, result: string, proof: string)
    requires Scheduled(s.work) && id in s.work.jobs
    ensures var a, e := s.work.jobs[id].authorization, EpochAt(s.now);
            var closed := S.CloseJob(s.work, id, Settled(v, e, result, proof)).(proofs := s.work.proofs + {proof});
            ProfitOf(BookEconomy(closed, v, e, a.reward, a.verifiedCost).economies, v, e) == ProfitWith(s, id, v)
  {
    hide Sum, SumBy;
  }

  lemma RankedRecords(s: State, c: RankedCall)
    requires Scheduled(s.work)
    ensures RankedStep(s, c).Done? ==> RegistryWritten(s, OnRanked(c), RankedStep(s, c).state)
  {
    hide Scheduled, S.Settle, PutRankedJob, S.CloseJob, Bump, Get, FreshHeartbeat, RegistryWritten;
    if c.SubmitRanked? {
      if c.job in s.work.jobs && c.version in s.registry.versions {
        SettleRecords(s, c.job, c.version, c.result, c.proof, c);
      }
    } else {
      RankedKeeps(s, c);
    }
  }

  lemma RankedKeeps(s: State, c: RankedCall)
    requires !c.SubmitRanked?
    ensures forall t: State :: t.registry == s.registry ==> RegistryWritten(s, OnRanked(c), t)
  {
  }

  lemma ChallengeRecords(s: State, c: VersionId, e: int, useMedian: bool, a: Action)
    requires a == OnSelection(Supersede(c, e)) || (a.OnSelection? && ChallengerOf(a.selection) == Some(c))
    ensures var o := S.ExecuteSupersede(s, c, e, useMedian);
            o.Done? ==> RegistryWritten(s, a, o.state)
  {
    hide Sum, S.Metric, S.EpochError, FreshHeartbeat, EconomyOf, Bump, Get;
  }

  lemma RetirementRecords(s: State, v: VersionId)
    requires Pointed(s.registry)
    ensures S.EjectStale(s, v).Done? ==> RegistryWritten(s, OnSelection(EjectStale(v)), S.EjectStale(s, v).state)
  {
    hide S.FirstHeir, S.Bequeath, S.SlashIfUnprofitable, S.StaleReference, EpochAt, Get;
  }

  lemma ClaimRecords(s: State, v: VersionId, e: int)
    ensures S.ClaimVacancy(s, v, e).Done? ==>
              RegistryWritten(s, OnSelection(ClaimVacancy(v, e)), S.ClaimVacancy(s, v, e).state)
  {
    hide S.EpochError, S.Profitable, FreshHeartbeat, EpochAt;
  }

  lemma CommitRecords(s: State, c: SelectionCall)
    requires c.CommitSupersede?
    ensures RegistryWritten(s, OnSelection(c), SelectionStep(s, c).state)
  {
    hide S.EpochError;
  }

  lemma SelectionRecords(s: State, c: SelectionCall)
    requires Pointed(s.registry)
    ensures SelectionStep(s, c).Done? ==> RegistryWritten(s, OnSelection(c), SelectionStep(s, c).state)
  {
    hide S.ExecuteSupersede, S.EpochError, S.EjectStale, S.ClaimVacancy, S.CommitSupersede, RegistryWritten, Pointed;
    match c
    case Supersede(v, e) => ChallengeRecords(s, v, e, false, OnSelection(c));
    case RevealSupersede(v, e, salt) =>
      var consumed := s.(commits := s.commits.(revealed := s.commits.revealed + {CommitId(v, e, salt)}));
      ChallengeRecords(consumed, v, e, true, OnSelection(c));
      if SelectionStep(s, c).Done? {
        WritesIgnoreCommits(s, consumed.commits, OnSelection(c), SelectionStep(s, c).state);
      }
    case CommitSupersede(_, _, _) => CommitRecords(s, c);
    case EjectStale(v) => RetirementRecords(s, v);
    case ClaimVacancy(v, e) => ClaimRecords(s, v, e);
  }

  lemma WritesIgnoreCommits(s: State, commits: Commits, a: Action, t: State)
    requires RegistryWritten(s.(commits := commits), a, t)
    ensures RegistryWritten(s, a, t)
  {
    hide ProfitOf;
  }

  // Every version, member list and pointer after any call in a reachable state.
  lemma EveryVersionIsWritten(start: int, run: seq<Action>, a: Action)
    ensures var s := WorldAfter(start, run).state;
            if Demand(s, a).None? then RegistryWritten(s, a, Next(s, a)) else Next(s, a).registry == s.registry
  {
    hide WorldAfter, MoneyStep, RegistryStep, RankedStep, MarketStep, SelectionStep, Demand, TraceOf, Leave, ErrorFits,
      RegistryWritten, Scheduled, Escrowed, Enrolled, Pointed, Chained, OnlyLiveHold, Dated, Committed, Capped,
      DaysAddUp, Sourced;
    ReachableSound(start, run);
    var s := WorldAfter(start, run).state;
    DemandsExact(start, run, a);
    RaiseLeaves(s, a);
    TracesKeepRegistry(s, TraceOf(s, a));
    match a
    case OnMoney(c) => MoneyFrame(s, c); NothingWritten(s, a);
    case OnRegistry(c) => RegistryRecords(s, c);
    case OnRanked(c) => RankedRecords(s, c);
    case OnMarket(c) => MarketFrame(s, c); NothingWritten(s, a);
    case OnSelection(c) => SelectionRecords(s, c);
  }

  lemma TracesKeepRegistry(s: State, trace: Trace)
    ensures var t := Leave(s, trace);
            t.registry == s.registry && t.work == s.work && t.market == s.market && t.now == s.now
            && t.commits.made == s.commits.made
  {
    hide Bump, EpochAt;
  }

  // ---- ranked jobs ----

  function RankedJobAfter(s: State, c: RankedCall, x: RankedJobId): Option<RankedJob> {
    var before := Find(s.work.jobs, x);
    match c
    case AuthorizeJob(_, _) => before
    case CreateRankedJob(a) => if x == RankedJobId(a, s.work.nonce) then Some(RankedJob(a, Open)) else before
    case SubmitRanked(_, id, v, result, proof, _) =>
      if x == id then Some(RankedJob(x.authorization, Settled(v, s.now / 604_800, result, proof))) else before
    case ExpireRanked(id) => if x == id then Some(RankedJob(x.authorization, Expired)) else before
  }

  function EconomyWith(s: State, c: RankedCall, v: VersionId, e: int): Economy {
    var before := EconomyOf(s.work.economies, v, e);
    if c.SubmitRanked? && c.version == v && e == s.now / 604_800
    then Economy(before.revenue + c.job.authorization.reward, before.cost + c.job.authorization.verifiedCost)
    else before
  }

  function ScheduledBy(a: Authorization, verifiers: seq<string>): Authorization {
    a.(verifierSet := if verifiers == [] then [a.verifier] else verifiers)
  }

  // The jobs, what is scheduled, what was used, and the proofs.
  ghost predicate WorkWritten(s: State, c: RankedCall, t: Work) {
    && (forall x :: Find(t.jobs, x) == RankedJobAfter(s, c, x))
    && (forall v, e :: EconomyOf(t.economies, v, e) == EconomyWith(s, c, v, e))
    && t.authorizations == s.work.authorizations
         + (if c.AuthorizeJob? then {ScheduledBy(c.authorization, c.verifiers)} else {})
    && t.used == s.work.used + (if c.CreateRankedJob? then {c.authorization} else {})
    && t.proofs == s.work.proofs + (if c.SubmitRanked? then {c.proof} else {})
    && t.nonce == s.work.nonce + (if c.CreateRankedJob? then 1 else 0)
  }

  lemma SettleWrites(s: State, id: RankedJobId, v: VersionId, result: string, proof: string, c: RankedCall)
    requires Scheduled(s.work) && id in s.work.jobs && v in s.registry.versions
    requires c.SubmitRanked? && c.job == id && c.version == v && c.result == result && c.proof == proof
    ensures var o := S.Settle(s, id, v, result, proof);
            o.Done? && WorkWritten(s, c, o.state.work)
  {
    hide Sum, SumBy, Bump, ProfitOf, S.MarkProfit;
  }

  lemma WorkRecords(s: State, c: RankedCall)
    requires Scheduled(s.work)
    ensures RankedStep(s, c).Done? ==> WorkWritten(s, c, RankedStep(s, c).state.work)
  {
    hide S.Settle, Sum, SumBy, Get, FreshHeartbeat;
    if c.SubmitRanked? && c.job in s.work.jobs && c.version in s.registry.versions {
      SettleWrites(s, c.job, c.version, c.result, c.proof, c);
    }
  }

  // Only ranked calls write ranked work, apart from the proof of an expense.
  lemma EveryJobIsWritten(start: int, run: seq<Action>, a: Action)
    ensures var s := WorldAfter(start, run).state; var t := Next(s, a).work;
            if Demand(s, a).Some? then t == s.work
            else if a.OnRanked? then WorkWritten(s, a.ranked, t)
            else if a.OnMoney? && a.money.SettleExpense? then t == s.work.(proofs := s.work.proofs + {a.money.proof})
            else t == s.work
  {
    hide WorldAfter, RegistryStep, RankedStep, MarketStep, SelectionStep, Demand, TraceOf, Leave, ErrorFits,
      WorkWritten, Scheduled, Escrowed, Enrolled, Pointed, Chained, OnlyLiveHold, Dated, Committed, Capped, DaysAddUp,
      Sourced, S.BeneficiaryError, S.SignatureError, S.DebitError, S.LiveBeneficiary, Bump, Get;
    ReachableSound(start, run);
    var s := WorldAfter(start, run).state;
    DemandsExact(start, run, a);
    RaiseLeaves(s, a);
    TracesKeepRegistry(s, TraceOf(s, a));
    match a
    case OnMoney(c) =>
    case OnRegistry(c) => RegistryFrame(s, c);
    case OnRanked(c) => WorkRecords(s, c);
    case OnMarket(c) => MarketFrame(s, c);
    case OnSelection(c) => SelectionFrame(s, c);
  }

  // ---- market jobs ----

  // Who performs is settled at the submission: the recipient of the target.
  function MarketJobAfter(s: State, c: MarketCall, x: MarketJobId): Option<MarketJob> {
    var before := Find(s.market.jobs, x);
    match c
    case OpenMarket(buyer, target, spec, reward, deadline, verifier) =>
      if x == MarketJobId(buyer, target, spec, reward, deadline, verifier, s.market.nonce)
      then Some(MarketJob(buyer, target, spec, reward, deadline, verifier, Offered)) else before
    case SubmitMarket(_, id, result, valid) =>
      if x != id || before.None? then before
      else
        var performer := Recipient(s.registry, before.value.target);
        if performer.None? then before
        else Some(before.value.(
          status := if before.value.workVerifier != "" && valid then Accepted(performer.value, result)
                    else Submitted(performer.value, result)))
    case AcceptMarket(_, id) =>
      if x != id || before.None? || !before.value.status.Submitted? then before
      else Some(before.value.(status := Accepted(before.value.status.performer, before.value.status.resultHash)))
    case RefundMarket(_, id) =>
      if x != id || before.None? then before else Some(before.value.(status := Refunded))
  }

  ghost predicate MarketWritten(s: State, c: MarketCall, t: Market) {
    && (forall x :: Find(t.jobs, x) == MarketJobAfter(s, c, x))
    && t.nonce == s.market.nonce + (if c.OpenMarket? then 1 else 0)
  }

  lemma MarketRecords(s: State, c: MarketCall)
    requires Pointed(s.registry) && Escrowed(s.market, s.registry)
    ensures MarketStep(s, c).Done? ==> MarketWritten(s, c, MarketStep(s, c).state.market)
  {
    hide Pointed, Sum, SumBy, S.LiveBeneficiary, Recipient, FreshHeartbeat, S.DebitError, Bump, Get;
    ReachesExactly(s);
  }

  lemma EveryOfferIsWritten(start: int, run: seq<Action>, a: Action)
    ensures var s := WorldAfter(start, run).state; var t := Next(s, a).market;
            if Demand(s, a).None? && a.OnMarket? then MarketWritten(s, a.market, t) else t == s.market
  {
    hide WorldAfter, MoneyStep, RegistryStep, RankedStep, MarketStep, SelectionStep, Demand, TraceOf, Leave, ErrorFits,
      MarketWritten, Scheduled, Escrowed, Enrolled, Pointed, Chained, OnlyLiveHold, Dated, Committed, Capped, DaysAddUp,
      Sourced;
    ReachableSound(start, run);
    var s := WorldAfter(start, run).state;
    DemandsExact(start, run, a);
    RaiseLeaves(s, a);
    TracesKeepRegistry(s, TraceOf(s, a));
    match a
    case OnMoney(c) => MoneyFrame(s, c);
    case OnRegistry(c) => RegistryFrame(s, c);
    case OnRanked(c) => RankedFrame(s, c);
    case OnMarket(c) => MarketRecords(s, c);
    case OnSelection(c) => SelectionFrame(s, c);
  }

  // ---- bonds ----

  // Who is bonded by a call: a newcomer, even if its signer policy then fails.
  function BondedBy(s: State, a: Action): Option<VersionId> {
    match TraceOf(s, a)
    case BondLeft(_, v) => Some(v)
    case NoTrace => if a.OnRegistry? then NewcomerOf(a.registry) else None
    case _ => None
  }

  // Whose bond a call takes: by a reclaim, even if the commons then lack the
  // money, or by an ejection.
  function UnbondedBy(s: State, a: Action): Option<VersionId> {
    match TraceOf(s, a)
    case BondTaken(v) => Some(v)
    case NoTrace =>
      (match a
       case OnRegistry(ReclaimBond(_, v)) => Some(v)
       case OnSelection(EjectStale(v)) => Some(v)
       case _ => None)
    case _ => None
  }

  ghost predicate BondsWritten(s: State, a: Action, t: ArenaTypes.Bonds) {
    forall v ::
      && Get(t.amount, v) == (if BondedBy(s, a) == Some(v) then 1_000
                              else if UnbondedBy(s, a) == Some(v) then 0
                              else Get(s.bonds.amount, v))
      && Find(t.epoch, v) == (if BondedBy(s, a) == Some(v) then Some(s.now / 604_800) else Find(s.bonds.epoch, v))
  }

  lemma RegistryBonds(s: State, c: RegistryCall)
    requires TraceOf(s, OnRegistry(c)).NoTrace?
    ensures RegistryStep(s, c).Done? ==> BondsWritten(s, OnRegistry(c), RegistryStep(s, c).state.bonds)
  {
    hide S.DeclarationError, S.SignerError, S.DebitError, S.Found, S.Enroll, S.Beat, S.Profitable, Bump, Sum, TraceOf;
  }

  lemma TraceBonds(s: State, a: Action)
    requires !TraceOf(s, a).NoTrace?
    ensures BondsWritten(s, a, Leave(s, TraceOf(s, a)).bonds)
  {
    hide TraceOf, Bump, Sum;
  }

  lemma SelectionBonds(s: State, c: SelectionCall)
    requires Dated(s.registry, s.work.economies, s.now) && Bonded(s) && TraceOf(s, OnSelection(c)).NoTrace?
    ensures SelectionStep(s, c).Done? ==> BondsWritten(s, OnSelection(c), SelectionStep(s, c).state.bonds)
  {
    hide Dated, Bonded, TraceOf, S.FirstHeir, S.Bequeath, S.Retire, S.ChallengeError, S.EpochError, S.Crown, S.Claim,
      S.Profitable, EpochAt, FreshHeartbeat, S.SlashIfUnprofitable, S.StaleReference, Bump;
    if c.EjectStale? && S.EjectStale(s, c.version).Done? {
      EjectionBond(s, c.version);
    }
  }

  lemma NoBondsWritten(s: State, a: Action)
    requires TraceOf(s, a).NoTrace? && !a.OnRegistry? && !a.OnSelection?
    ensures BondsWritten(s, a, s.bonds)
  {
    hide TraceOf;
  }

  lemma EveryBondIsWritten(start: int, run: seq<Action>, a: Action)
    ensures var s := WorldAfter(start, run).state; var t := Next(s, a).bonds;
            if Demand(s, a).None? || !TraceOf(s, a).NoTrace? then BondsWritten(s, a, t) else t == s.bonds
  {
    hide WorldAfter, MoneyStep, RegistryStep, RankedStep, MarketStep, SelectionStep, Demand, TraceOf, Leave, ErrorFits,
      BondsWritten, Scheduled, Escrowed, Enrolled, Pointed, Chained, OnlyLiveHold, Dated, Committed, Capped, DaysAddUp,
      Sourced, Bonded;
    ReachableSound(start, run);
    ReachableSettling(start, run);
    var s := WorldAfter(start, run).state;
    DemandsExact(start, run, a);
    RaiseLeaves(s, a);
    assert Leave(s, NoTrace) == s by { NothingLeft(s); }
    if !TraceOf(s, a).NoTrace? {
      TraceBonds(s, a);
    } else {
      match a
      case OnMoney(c) => MoneyFrame(s, c); NoBondsWritten(s, a);
      case OnRegistry(c) => RegistryBonds(s, c);
      case OnRanked(c) => RankedFrame(s, c); NoBondsWritten(s, a);
      case OnMarket(c) => MarketFrame(s, c); NoBondsWritten(s, a);
      case OnSelection(c) => SelectionBonds(s, c);
    }
  }

  lemma NothingLeft(s: State)
    ensures Leave(s, NoTrace) == s
  {
  }

  // ---- commits and the clock ----

  function CommitAfter(s: State, a: Action, id: CommitId): Option<Commit> {
    match a
    case OnSelection(CommitSupersede(v, e, salt)) =>
      if id == CommitId(v, e, salt) then Some(Commit(v, e, s.now)) else Find(s.commits.made, id)
    case _ => Find(s.commits.made, id)
  }

  function ClockAfter(s: State, a: Action): int {
    match a
    case OnMoney(Advance(n)) => s.now + n
    case OnMoney(AdvanceToNextEpoch) => (s.now / 604_800 + 1) * 604_800
    case _ => s.now
  }

  lemma SelectionCommits(s: State, c: SelectionCall)
    ensures var t := SelectionStep(s, c).state;
            SelectionStep(s, c).Done? ==>
              && (forall id :: Find(t.commits.made, id) == CommitAfter(s, OnSelection(c), id))
              && t.commits.revealed == s.commits.revealed
                 + (if c.RevealSupersede? then {CommitId(c.challenger, c.epoch, c.salt)} else {})
  {
    hide S.ChallengeError, S.EpochError, S.FirstHeir, S.Bequeath, S.Retire, S.Crown, S.Claim, S.Profitable,
      FreshHeartbeat, EpochAt, Bump, Get, EconomyOf;
  }

  lemma MoneyClock(s: State, c: MoneyCall)
    ensures MoneyStep(s, c).Done? ==> MoneyStep(s, c).state.now == ClockAfter(s, OnMoney(c))
  {
    hide S.BeneficiaryError, S.SignatureError, S.DebitError, S.LiveBeneficiary, Bump, Get;
  }

  // A reveal uses its commit up even when its challenge is lost.
  lemma EveryCommitIsWritten(start: int, run: seq<Action>, a: Action)
    ensures var s := WorldAfter(start, run).state; var t := Next(s, a);
            && t.now == (if Demand(s, a).None? then ClockAfter(s, a) else s.now)
            && (forall id :: Find(t.commits.made, id)
                             == if Demand(s, a).None? then CommitAfter(s, a, id) else Find(s.commits.made, id))
            && t.commits.revealed == s.commits.revealed
                 + (if a.OnSelection? && a.selection.RevealSupersede?
                       && (Demand(s, a).None? || TraceOf(s, a).CommitUsed?)
                    then {CommitId(a.selection.challenger, a.selection.epoch, a.selection.salt)} else {})
  {
    hide WorldAfter, MoneyStep, RegistryStep, RankedStep, MarketStep, SelectionStep, Demand, TraceOf, Leave, ErrorFits,
      Scheduled, Escrowed, Enrolled, Pointed, Chained, OnlyLiveHold, Dated, Committed, Capped, DaysAddUp, Sourced;
    ReachableSound(start, run);
    var s := WorldAfter(start, run).state;
    DemandsExact(start, run, a);
    RaiseLeaves(s, a);
    TracesKeepRegistry(s, TraceOf(s, a));
    TraceReveals(s, a);
    CallFrame(s, a);
    match a
    case OnMoney(c) => MoneyClock(s, c);
    case OnSelection(c) => SelectionCommits(s, c);
    case _ =>
  }

  lemma TraceReveals(s: State, a: Action)
    ensures var t, trace := Leave(s, TraceOf(s, a)), TraceOf(s, a);
            t.commits.revealed == s.commits.revealed
              + (if a.OnSelection? && a.selection.RevealSupersede? && trace.CommitUsed?
                 then {CommitId(a.selection.challenger, a.selection.epoch, a.selection.salt)} else {})
  {
    hide GenesisFault, RegistrationFault, RevealFault, Eligible, Bump, EpochAt;
  }
}
