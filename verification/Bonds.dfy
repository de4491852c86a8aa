// Registration bonds: when one is left behind without a version, when a version
// still has its own, and what the commons can pay back.
module Bonds {
  import opened Options
  import opened Totals
  import opened ArenaTypes
  import S = ArenaSpec
  import opened Runs
  import opened Conservation
  import opened Lineages
  import opened Chronology
  import opened RankedWork
  import opened Provenance
  import opened Safety
  import opened Challenges

  // A bond with no registered version behind it appears exactly when everything
  // but the signer policy was in order: the call raises after taking the money.
  lemma OrphanBondByGenesis(
    s: State, operator: Account, d: Declaration, salt: string, attested: bool, license: string,
    funder: Account, signers: seq<Account>, threshold: int)
    requires var v := S.GenesisId(operator, d, salt); v !in s.registry.versions && Get(s.bonds.amount, v) == 0
    ensures var v := S.GenesisId(operator, d, salt);
            var t := S.CreateLineage(s, operator, d, salt, attested, license, funder, signers, threshold).state;
            Get(t.bonds.amount, v) > 0 && v !in t.registry.versions <==>
              && S.DeclarationError(d, attested, license).None?
              && v.lineage !in s.registry.active
              && Get(s.bank.wallets, S.FunderOr(funder, operator)) >= VERSION_BOND
              && S.SignerError(S.SignersOr(signers, operator), threshold, operator).Some?
  {
    hide S.DeclarationError, S.SignerError, EpochAt, Sum;
  }

  lemma OrphanBondByRegistration(
    s: State, parent: VersionId, operator: Account, d: Declaration, salt: string, attested: bool, license: string,
    funder: Account, signers: seq<Account>, threshold: int)
    requires var v := VersionId(parent.lineage, Some(parent), operator, d, salt);
             v !in s.registry.versions && Get(s.bonds.amount, v) == 0
    ensures var v := VersionId(parent.lineage, Some(parent), operator, d, salt);
            var t := S.RegisterVersion(s, parent.lineage, parent, operator, d, salt, attested, license, funder,
                                       signers, threshold).state;
            Get(t.bonds.amount, v) > 0 && v !in t.registry.versions <==>
              && parent.lineage in s.registry.active && parent in s.registry.versions
              && S.DeclarationError(d, attested, license).None?
              && Get(s.bank.wallets, S.FunderOr(funder, operator)) >= VERSION_BOND
              && S.SignerError(S.SignersOr(signers, operator), threshold, operator).Some?
  {
    hide S.DeclarationError, S.SignerError, EpochAt, Sum;
  }

  const EXAMPLE := Declaration("s", "i", "p", "r", "ipfs://x")

  lemma ExampleAccepted()
    ensures S.DeclarationError(EXAMPLE, true, REQUIRED_LICENSE).None?
  {
    var uri := "ipfs://x";
    assert S.Utf8Length(uri[8..]) == 0;
    assert S.Utf8Length(uri[7..]) == 1 && S.Utf8Length(uri[6..]) == 2 by {
      assert uri[7..][1..] == uri[8..] && uri[6..][1..] == uri[7..];
    }
  }

  // An operator with just the bond posts a lineage with threshold 0: the call
  // raises, the wallet is empty, and the bond belongs to no version.
  lemma OrphanBondExists() returns (run: seq<Action>, v: VersionId)
    ensures var s := After(Init(0), run).bonds; Get(s.amount, v) == VERSION_BOND
    ensures v !in After(Init(0), run).registry.versions
  {
    ExampleAccepted();
    hide S.DeclarationError;
    var mint := OnMoney(Mint("o", VERSION_BOND));
    var create := OnRegistry(CreateLineage("o", EXAMPLE, "", true, REQUIRED_LICENSE, "", [], 0));
    run := [mint, create];
    v := S.GenesisId("o", EXAMPLE, "");
    assert run[..1] == [mint] && [mint][..0] == [];
    assert After(Init(0), [mint]) == Next(Init(0), mint);
  }

  // ---- a version has its bond until it is reclaimed or the version ejected ----

  // A reclaim that passes every guard up to the payment.
  predicate Eligible(s: State, operator: Account, v: VersionId) {
    && v in s.registry.versions
    && v.operator == operator
    && Get(s.bonds.amount, v) != 0
    && EpochAt(s.now) > S.BondEpoch(s, v)
    && S.Profitable(s.work.economies, v, EpochAt(s.now) - 1)
  }

  // The calls that take a version's bond away.
  predicate Forfeits(s: State, a: Action, v: VersionId) {
    match a
    case OnRegistry(ReclaimBond(operator, x)) => x == v && Eligible(s, operator, v)
    case OnSelection(EjectStale(x)) => x == v && Step(s, a).Done?
    case _ => false
  }

  // A registered version was bonded in the epoch it was registered in.
  ghost predicate Bonded(s: State) {
    forall v | v in s.registry.versions ::
      v in s.bonds.epoch && s.bonds.epoch[v] == EpochAt(s.registry.versions[v].createdAt)
  }

  ghost predicate Settling(s: State) {
    && Enrolled(s.registry) && Pointed(s.registry)
    && Dated(s.registry, s.work.economies, s.now)
    && Bonded(s)
  }

  // A version that can be ejected was bonded long ago and made no profit in the
  // last closed epoch, so ejecting it always takes its bond.
  lemma StaleIsUnprofitable(s: State, v: VersionId)
    requires Dated(s.registry, s.work.economies, s.now) && Bonded(s) && S.EjectStale(s, v).Done?
    ensures EpochAt(s.now) - S.BondEpoch(s, v) >= 2
    ensures !S.Profitable(s.work.economies, v, EpochAt(s.now) - 1)
  {
    hide S.FirstHeir, S.Bequeath, S.Retire, S.SlashIfUnprofitable, Booked, EconomyOf;
    var x := s.registry.versions[v];
    StaleAge(s, v);
    EpochGap(x.createdAt, s.now);
    if S.Profitable(s.work.economies, v, EpochAt(s.now) - 1) {
      assert ProfitOf(s.work.economies, v, EpochAt(s.now) - 1) > 0;
      EpochBounds(s.now);
    }
  }

  // The slashing rule in any state: a bond at least two epochs old, of a version
  // that had no profit or no revenue in the last closed epoch, is forfeited.
  lemma SlashExactly(s: State, v: VersionId)
    ensures var t, now := S.SlashIfUnprofitable(s, v), s.now / 604_800;
            var last := EconomyOf(s.work.economies, v, now - 1);
            && t == s.(bonds := t.bonds) && t.bonds.epoch == s.bonds.epoch
            && (forall x | x != v :: Get(t.bonds.amount, x) == Get(s.bonds.amount, x))
            && Get(t.bonds.amount, v)
               == if v in s.bonds.epoch && s.bonds.epoch[v] <= now - 2
                     && (last.revenue == 0 || last.revenue <= last.cost)
                  then 0 else Get(s.bonds.amount, v)
  {
    hide EconomyOf;
  }

  lemma StaleAge(s: State, v: VersionId)
    requires Past(s.registry, s.now) && S.EjectStale(s, v).Done?
    ensures v in s.registry.versions
    ensures s.now > S.StaleReference(s.registry.versions[v]) + STALE_AFTER
    ensures S.StaleReference(s.registry.versions[v]) >= s.registry.versions[v].createdAt
  {
    hide S.FirstHeir, S.Bequeath, S.Retire, S.SlashIfUnprofitable;
  }

  lemma EpochGap(before: int, now: int)
    requires now > before + STALE_AFTER
    ensures EpochAt(now) - EpochAt(before) >= 4
  {
  }

  lemma RegistryBond(s: State, c: RegistryCall, v: VersionId)
    requires Enrolled(s.registry) && v in s.registry.versions
    ensures var t := RegistryStep(s, c).state;
            && Get(t.bonds.amount, v)
               == (if Forfeits(s, OnRegistry(c), v) then 0 else Get(s.bonds.amount, v))
            && (v in s.bonds.epoch ==> v in t.bonds.epoch && t.bonds.epoch[v] == s.bonds.epoch[v])
  {
    hide Enrolled, S.DeclarationError, S.SignerError, S.DebitError, S.Found, S.Enroll, S.Beat, S.Profitable,
      EpochAt, Bump, Sum;
    NewLineages(s.registry);
  }

  lemma EjectionBond(s: State, v: VersionId)
    requires Dated(s.registry, s.work.economies, s.now) && Bonded(s) && S.EjectStale(s, v).Done?
    ensures S.EjectStale(s, v).state.bonds == s.bonds.(amount := s.bonds.amount[v := 0])
         || (Get(s.bonds.amount, v) == 0 && S.EjectStale(s, v).state.bonds == s.bonds)
  {
    hide S.FirstHeir, S.Bequeath, S.Retire, S.Profitable, EpochAt, Dated, Bonded, S.StaleReference;
    StaleIsUnprofitable(s, v);
  }

  lemma SelectionBond(s: State, c: SelectionCall, v: VersionId)
    requires Dated(s.registry, s.work.economies, s.now) && Bonded(s)
    ensures var t := SelectionStep(s, c).state;
            && Get(t.bonds.amount, v) == (if Forfeits(s, OnSelection(c), v) then 0 else Get(s.bonds.amount, v))
            && t.bonds.epoch == s.bonds.epoch
  {
    hide S.FirstHeir, S.Bequeath, S.Retire, S.ChallengeError, S.EpochError, S.Crown, S.Claim, S.Profitable, EpochAt,
      Dated, Bonded, FreshHeartbeat, EconomyOf, S.SlashIfUnprofitable, S.StaleReference, Bump;
    if c.EjectStale? && S.EjectStale(s, c.version).Done? {
      EjectionBond(s, c.version);
    }
  }

  // A call takes a registered version's bond, or leaves it as it was.
  lemma BondStep(s: State, a: Action, v: VersionId)
    requires Settling(s) && v in s.registry.versions
    ensures Get(Next(s, a).bonds.amount, v) == if Forfeits(s, a, v) then 0 else Get(s.bonds.amount, v)
    ensures v in Next(s, a).bonds.epoch && Next(s, a).bonds.epoch[v] == s.bonds.epoch[v]
  {
    hide Enrolled, Pointed, Dated, MoneyStep, RegistryStep, RankedStep, MarketStep, SelectionStep, Eligible;
    match a
    case OnMoney(c) => MoneyFrame(s, c);
    case OnRegistry(c) => RegistryBond(s, c, v);
    case OnRanked(c) => RankedFrame(s, c);
    case OnMarket(c) => MarketFrame(s, c);
    case OnSelection(c) => SelectionBond(s, c, v);
  }

  // A newly registered version has its full bond.
  lemma NewBond(s: State, a: Action, v: VersionId)
    requires Enrolled(s.registry) && Pointed(s.registry)
    requires v !in s.registry.versions && v in Next(s, a).registry.versions
    ensures var t := Next(s, a);
            && Get(t.bonds.amount, v) == VERSION_BOND
            && v in t.bonds.epoch && t.bonds.epoch[v] == EpochAt(t.registry.versions[v].createdAt)
    ensures !Forfeits(s, a, v)
  {
    hide Enrolled, Pointed, MoneyStep, RankedStep, MarketStep, SelectionStep, RegistryStep, Eligible, Apply,
      Allowed, WriteOf;
    CallFrame(s, a);
    CallWrites(s, a);
    NewWrite(s.registry, WriteOf(s, a), v, s.now);
    NothingToForfeit(s, a, v);
    if a.OnRegistry? {
      NewRegistration(s, a.registry, v);
    } else {
      NoRegistration(s, a);
    }
  }

  lemma NothingToForfeit(s: State, a: Action, v: VersionId)
    requires v !in s.registry.versions
    ensures !Forfeits(s, a, v)
  {
    hide S.FirstHeir, S.Bequeath, S.Retire, S.SlashIfUnprofitable, S.Profitable, EpochAt;
  }

  lemma NewWrite(r: Registry, w: Write, v: VersionId, now: int)
    requires Allowed(r, w, now) && v !in r.versions && v in Apply(r, w).versions
    ensures w.Found? || w.Enroll?
  {
  }

  lemma NoRegistration(s: State, a: Action)
    requires !a.OnRegistry?
    ensures !WriteOf(s, a).Found? && !WriteOf(s, a).Enroll?
  {
    hide Step;
  }

  lemma NewRegistration(s: State, c: RegistryCall, v: VersionId)
    requires v !in s.registry.versions && v in RegistryStep(s, c).state.registry.versions
    ensures var t := RegistryStep(s, c).state;
            && Get(t.bonds.amount, v) == VERSION_BOND
            && v in t.bonds.epoch && t.bonds.epoch[v] == EpochAt(t.registry.versions[v].createdAt)
  {
    hide S.DeclarationError, S.SignerError, S.DebitError, S.Profitable, EpochAt, Bump, Sum, MembersOf;
  }

  lemma BondedKept(s: State, a: Action)
    requires Settling(s) && Conserved(s)
    ensures Bonded(Next(s, a))
  {
    hide Enrolled, Pointed, Dated, Next, Conserved, Forfeits, RegistryLater, Apply, Allowed, WriteOf, EpochAt;
    assert Past(s.registry, s.now) by { DatedPast(s); }
    CallWrites(s, a);
    WriteLater(s.registry, WriteOf(s, a), s.now);
    forall v | v in Next(s, a).registry.versions
      ensures var t := Next(s, a);
              v in t.bonds.epoch && t.bonds.epoch[v] == EpochAt(t.registry.versions[v].createdAt)
    {
      if v in s.registry.versions {
        BondStep(s, a, v);
        SameAge(s.registry, Next(s, a).registry, v);
      } else {
        NewBond(s, a, v);
      }
    }
  }

  lemma DatedPast(s: State)
    requires Dated(s.registry, s.work.economies, s.now)
    ensures Past(s.registry, s.now)
  {
    hide Booked, ProfitDated, Past;
  }

  lemma SameAge(r: Registry, t: Registry, v: VersionId)
    requires RegistryLater(r, t) && v in r.versions
    ensures v in t.versions && t.versions[v].createdAt == r.versions[v].createdAt
  {
  }

  lemma {:induction false} ReachableSettling(start: int, run: seq<Action>)
    ensures Settling(WorldAfter(start, run).state)
  {
    hide Enrolled, Pointed, Chained, OnlyLiveHold, Dated, Conserved, Bonded, Committed, Next, Beginning;
    ReachableSound(start, run);
    if run == [] {
      NoBonds(start);
    } else {
      ReachableSettling(start, run[..|run| - 1]);
      ReachableSound(start, run[..|run| - 1]);
      BondedKept(WorldAfter(start, run[..|run| - 1]).state, run[|run| - 1]);
    }
  }

  lemma NoBonds(start: int)
    ensures Bonded(Beginning(start).state)
  {
  }

  ghost predicate Untouched(start: int, run: seq<Action>, n: nat, v: VersionId)
    requires n <= |run|
  {
    forall i: nat | i < n :: !Forfeits(At(start, run, i), run[i], v)
  }

  // In every reachable state a registered version has its whole bond exactly
  // while no eligible reclaim and no ejection of it has been made, and none after.
  lemma {:induction false} BondExactly(start: int, run: seq<Action>, n: nat, v: VersionId)
    requires n <= |run| && v in At(start, run, n).registry.versions
    ensures Get(At(start, run, n).bonds.amount, v) == if Untouched(start, run, n, v) then VERSION_BOND else 0
    decreases n
  {
    hide At, Forfeits, Settling, Next;
    if n == 0 {
      NobodyYet(start, run);
    } else {
      var s, a := At(start, run, n - 1), run[n - 1];
      AtNext(start, run, n - 1);
      SettlingAt(start, run, n - 1);
      assert Untouched(start, run, n, v) <==> Untouched(start, run, n - 1, v) && !Forfeits(s, a, v);
      if v in s.registry.versions {
        BondExactly(start, run, n - 1, v);
        BondStep(s, a, v);
      } else {
        SettlingRegistry(s);
        NewBond(s, a, v);
        UnregisteredUntouched(start, run, n - 1, v);
      }
    }
  }

  lemma NobodyYet(start: int, run: seq<Action>)
    ensures At(start, run, 0).registry.versions == map[]
  {
  }

  lemma SettlingAt(start: int, run: seq<Action>, i: nat)
    requires i <= |run|
    ensures Settling(At(start, run, i))
  {
    hide Settling;
    ReachableSettling(start, run[..i]);
  }

  lemma SettlingRegistry(s: State)
    requires Settling(s)
    ensures Enrolled(s.registry) && Pointed(s.registry)
  {
    hide Enrolled, Pointed, Dated, Bonded;
  }

  // Nothing takes the bond of a version that is not registered yet.
  lemma UnregisteredUntouched(start: int, run: seq<Action>, n: nat, v: VersionId)
    requires n <= |run| && v !in At(start, run, n).registry.versions
    ensures Untouched(start, run, n, v)
  {
    hide At, Next, Forfeits;
    forall i: nat | i < n ensures !Forfeits(At(start, run, i), run[i], v) {
      if v in At(start, run, i).registry.versions { StaysRegistered(start, run, i, n, v); }
      NothingToForfeit(At(start, run, i), run[i], v);
    }
  }

  // ---- which epoch decides a reclaim ----

  // Ranked rewards are positive and costs are not negative, so a profit is never
  // without revenue.
  lemma ProfitHasRevenue(s: State, v: VersionId, e: int)
    requires Scheduled(s.work) && Earned(s.work.jobs, s.work.economies)
    ensures S.Profitable(s.work.economies, v, e) <==> ProfitOf(s.work.economies, v, e) > 0
    ensures ProfitOf(s.work.economies, v, e) > 0 ==> EconomyOf(s.work.economies, v, e).revenue > 0
  {
    hide SumBy, EconomyOf, WonCost;
    assert SumBy(s.work.jobs, WonCost(Period(v, e))) >= 0 by { CostsNonNegative(s.work, Period(v, e)); }
  }

  lemma CostsNonNegative(k: Work, p: Period)
    requires Scheduled(k)
    ensures SumBy(k.jobs, WonCost(p)) >= 0
  {
    hide SumBy;
    SumByNonNegative(k.jobs, WonCost(p));
  }

  // In every reachable state the profit of the last closed epoch decides, which
  // for a reclaim in the epoch after the bond's is the bond epoch itself.
  lemma ReclaimDecidedBy(start: int, run: seq<Action>, operator: Account, v: VersionId)
    requires v in WorldAfter(start, run).state.registry.versions
    ensures var s := WorldAfter(start, run).state;
            var bonded, now := EpochAt(s.registry.versions[v].createdAt), EpochAt(s.now);
            Eligible(s, operator, v) <==>
              && v.operator == operator && Get(s.bonds.amount, v) != 0
              && now > bonded
              && ProfitOf(s.work.economies, v, now - 1) > 0
  {
    hide WorldAfter, EpochAt, S.Profitable, ProfitOf, Scheduled, Escrowed, Solvent, Earned, Enrolled, Pointed, Chained,
      OnlyLiveHold, Dated, Committed, Capped, DaysAddUp, Sourced;
    var s := WorldAfter(start, run).state;
    ReachableSound(start, run);
    ReachableSettling(start, run);
    ProfitHasRevenue(s, v, EpochAt(s.now) - 1);
  }

  // ---- what a reclaim pays ----

  // An eligible reclaim takes the bond in any case; it pays it exactly when the
  // commons hold as much, and otherwise raises with no money moved.
  lemma ReclaimExactly(s: State, operator: Account, v: VersionId)
    requires Eligible(s, operator, v)
    ensures var o, bond := S.ReclaimBond(s, operator, v), Get(s.bonds.amount, v);
            && Get(o.state.bonds.amount, v) == 0
            && (o.Done? <==> s.bank.commonsAvailable >= bond)
            && (o.Done? ==> o.state.bank == s.bank.(
                              commonsAvailable := s.bank.commonsAvailable - bond,
                              wallets := Bump(s.bank.wallets, operator, bond)))
            && (o.Raised? ==> o.error == CommonsInsufficient && o.state.bank == s.bank)
  {
    hide S.Profitable, EpochAt, Sum;
  }

  // Whatever was left of the bond then is lost: for the rest of the run it is
  // 0, and every further reclaim raises without an effect.
  lemma LostForGood(start: int, run: seq<Action>, i: nat, j: nat, operator: Account, v: VersionId, anyone: Account)
    requires i < j <= |run|
    requires run[i] == OnRegistry(ReclaimBond(operator, v)) && Eligible(At(start, run, i), operator, v)
    ensures var t := At(start, run, j);
            && Get(t.bonds.amount, v) == 0
            && S.ReclaimBond(t, anyone, v).Raised?
            && S.ReclaimBond(t, anyone, v).state == t
  {
    hide At, Later, S.Profitable, EpochAt, S.BondEpoch;
    var t := At(start, run, j);
    StaysRegistered(start, run, i, j, v);
    assert Forfeits(At(start, run, i), run[i], v);
    assert !Untouched(start, run, j, v);
    BondExactly(start, run, j, v);
  }

  lemma StaysRegistered(start: int, run: seq<Action>, i: nat, j: nat, v: VersionId)
    requires i <= j <= |run| && v in At(start, run, i).registry.versions
    ensures v in At(start, run, j).registry.versions
  {
    hide At, Frozen, JobsLater, CommitsLater;
    RunLater(start, run, i, j);
  }

  // ---- what covers the bonds ----

  // What the commons hold beyond the bonds, had no reward been taken from them.
  ghost function Cover(s: State): int {
    s.bank.commonsAvailable + OpenTotal(s.work) + RevenueTotal(s.work) - Sum(s.bonds.amount)
  }

  lemma MoneyCover(s: State, c: MoneyCall)
    requires Conserved(s)
    ensures Cover(MoneyStep(s, c).state) >= Cover(s)
  {
    hide Sum, SumBy, S.BeneficiaryError, S.SignatureError, S.LiveBeneficiary, Bump, Get, Scheduled, Escrowed,
      NonNegative, Holdings;
  }

  lemma BondSums(amount: map<VersionId, int>, v: VersionId, n: int)
    requires NonNegative(amount)
    ensures Sum(amount[v := n]) == Sum(amount) + n - Get(amount, v) && Get(amount, v) >= 0
  {
    SumByUpdate(amount, (k: VersionId, m: int) => m, v, n);
  }

  lemma RegistryCover(s: State, c: RegistryCall)
    requires Conserved(s)
    ensures Cover(RegistryStep(s, c).state) >= Cover(s)
  {
    hide Sum, SumBy, S.DeclarationError, S.SignerError, S.Found, S.Enroll, S.Beat, S.Profitable, EpochAt, Bump,
      Scheduled, Escrowed, NonNegative, Holdings;
    match c
    case CreateLineage(o, d, salt, _, _, _, _, _) => BondSums(s.bonds.amount, S.GenesisId(o, d, salt), VERSION_BOND);
    case RegisterVersion(l, p, o, d, salt, _, _, _, _, _) =>
      BondSums(s.bonds.amount, VersionId(l, Some(p), o, d, salt), VERSION_BOND);
    case ReclaimBond(_, v) => BondSums(s.bonds.amount, v, 0);
    case Heartbeat(_, _, _, _) =>
  }

  lemma SettleCover(s: State, id: RankedJobId, v: VersionId, result: string, proof: string)
    requires id in s.work.jobs && s.work.jobs[id].status.Open? && v in s.registry.versions && Scheduled(s.work)
    ensures S.Settle(s, id, v, result, proof).Done? ==> Cover(S.Settle(s, id, v, result, proof).state) == Cover(s)
    ensures S.Settle(s, id, v, result, proof).Done?
  {
    hide Sum, SumBy, S.MarkProfit, EpochAt, Bump, ProfitOf;
  }

  lemma RankedCover(s: State, c: RankedCall)
    requires Conserved(s)
    ensures Cover(RankedStep(s, c).state) == Cover(s)
  {
    hide Sum, SumBy, S.Settle, FreshHeartbeat, Escrowed, Solvent, Get;
    if c.SubmitRanked? && c.job in s.work.jobs && s.work.jobs[c.job].status.Open? && c.version in s.registry.versions {
      SettleCover(s, c.job, c.version, c.result, c.proof);
    }
  }

  lemma MarketCover(s: State, c: MarketCall)
    requires Conserved(s)
    ensures Cover(MarketStep(s, c).state) >= Cover(s)
  {
    hide Sum, SumBy, Get, Bump, PutMarketJob, S.BeneficiaryError, S.DebitError, FreshHeartbeat, S.LiveBeneficiary,
      Scheduled, Solvent;
  }

  lemma SlashCover(s: State, v: VersionId)
    requires NonNegative(s.bonds.amount)
    ensures var t := S.SlashIfUnprofitable(s, v);
            t.bank == s.bank && t.work == s.work && Sum(t.bonds.amount) <= Sum(s.bonds.amount)
  {
    hide Sum, S.Profitable, EpochAt;
    BondSums(s.bonds.amount, v, 0);
  }

  lemma SelectionCover(s: State, c: SelectionCall)
    requires Conserved(s)
    ensures Cover(SelectionStep(s, c).state) >= Cover(s)
  {
    hide Sum, SumBy, S.FirstHeir, S.Retire, S.ChallengeError, S.EpochError, S.Crown, S.Claim, S.Profitable, EpochAt,
      FreshHeartbeat, EconomyOf, S.SlashIfUnprofitable, S.StaleReference, Bump, Scheduled, Escrowed, Holdings;
    if c.EjectStale? { SlashCover(s, c.version); }
  }

  lemma CoverGrows(s: State, a: Action)
    requires Conserved(s)
    ensures Cover(Next(s, a)) >= Cover(s)
  {
    hide Conserved, Cover, MoneyStep, RegistryStep, RankedStep, MarketStep, SelectionStep;
    match a
    case OnMoney(c) => MoneyCover(s, c);
    case OnRegistry(c) => RegistryCover(s, c);
    case OnRanked(c) => RankedCover(s, c);
    case OnMarket(c) => MarketCover(s, c);
    case OnSelection(c) => SelectionCover(s, c);
  }

  // In every reachable state the commons, the rewards of open jobs and those
  // already paid out cover all bonds: only ranked rewards can uncover them.
  lemma {:induction false} BondsCovered(start: int, run: seq<Action>)
    ensures var s := WorldAfter(start, run).state;
            s.bank.commonsAvailable + OpenTotal(s.work) + RevenueTotal(s.work) >= Sum(s.bonds.amount)
  {
    hide Sum, OpenTotal, RevenueTotal, Next, Conserved, Governed, Dated, Committed, Beginning;
    if run == [] {
      NothingToCover(start);
    } else {
      BondsCovered(start, run[..|run| - 1]);
      ReachableSound(start, run[..|run| - 1]);
      CoverGrows(WorldAfter(start, run[..|run| - 1]).state, run[|run| - 1]);
    }
  }

  lemma NothingToCover(start: int)
    ensures Cover(Beginning(start).state) >= 0
  {
    hide Sum, SumBy;
    SumByEmpty(OpenReward);
    SumByEmpty(RevenueWeight);
    SumEmpty<VersionId>();
  }
}
