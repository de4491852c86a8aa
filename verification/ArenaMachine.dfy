// The arena as an object whose calls update its fields in place; every call
// does exactly what its step function says, on returning and on raising, so its
// fields are always the state that the run of its calls leads to.
module ArenaMachine {
  import opened Options
  import opened Totals
  import opened ArenaTypes
  import S = ArenaSpec
  import opened Runs
  import opened Medians
  import Lineages
  import Sorting
  import Routing
  import Safety

  ghost predicate Agrees(o: Outcome, t: State, error: Option<Error>) {
    o == match error case None => Done(t) case Some(e) => Raised(t, e)
  }

  // What the search for an heir relies on: lineages list registered versions.
  ghost predicate Consistent(r: Registry) {
    Lineages.Enrolled(r) && Lineages.Pointed(r)
  }

  // In every reachable state.
  lemma ReachableConsistent(start: int, run: seq<Action>)
    ensures Consistent(After(Init(start), run).registry)
  {
    hide WorldAfter, Init, After, Lineages.Enrolled, Lineages.Pointed, Lineages.Chained, Lineages.OnlyLiveHold;
    Safety.ReachableSound(start, run);
    WorldAfterState(start, run);
  }

  lemma AfterLast(s: State, run: seq<Action>, a: Action)
    ensures After(s, run + [a]) == Next(After(s, run), a)
  {
    hide Next;
    assert (run + [a])[..|run|] == run;
  }

  // The source keeps one attribute per table and counter; here they are grouped
  // into records, and a call assigns the component it writes.
  class Arena {
    var now: int
    var registry: Registry
    var bank: Bank
    var tally: Tally
    var bonds: Bonds
    var work: Work
    var market: Market
    var commits: Commits

    // The calls made so far, and when the arena was set up.
    ghost var run: seq<Action>
    ghost const start: int

    ghost function Snapshot(): State
      reads this
    {
      State(now, registry, bank, tally, bonds, work, market, commits)
    }

    ghost predicate Valid()
      reads this
    {
      Snapshot() == After(Init(start), run)
    }

    // Enters a call into the run; its body then has to do what the call says.
    ghost method Log(a: Action)
      requires Valid()
      modifies this`run
      ensures run == old(run) + [a]
      ensures After(Init(start), run) == Next(Snapshot(), a)
      ensures Consistent(registry)
    {
      hide Init, Next, Consistent, After;
      ReachableConsistent(start, run);
      AfterLast(Init(start), run, a);
      run := run + [a];
    }

    constructor (startTime: int)
      ensures Valid() && Snapshot() == Init(startTime)
      ensures start == startTime && run == []
    {
      start, run := startTime, [];
      now := startTime;
      registry := Registry(map[], map[], map[]);
      bank := Bank(map[], map[], 0, 0, 0, 0, 0);
      tally := Tally(map[], map[], map[], map[], 0);
      bonds := Bonds(map[], map[]);
      work := Work({}, {}, map[], 0, map[], {});
      market := Market(map[], 0);
      commits := Commits(map[], {});
    }

    method DebitWallet(account: Account, amount: int) returns (error: Option<Error>)
      modifies this`bank
      ensures error == S.DebitError(old(Snapshot()).bank, account, amount)
      ensures bank == if error.Some? then old(bank)
                      else old(bank).(wallets := Bump(old(bank.wallets), account, -amount))
    {
      if amount <= 0 { return Some(AmountNotPositive); }
      if Get(bank.wallets, account) < amount { return Some(InsufficientWallet); }
      bank := bank.(wallets := Bump(bank.wallets, account, -amount));
      return None;
    }

    method LiveBeneficiary(v: VersionId) returns (beneficiary: Option<VersionId>)
      requires Consistent(registry) && v in registry.versions
      ensures beneficiary == S.LiveBeneficiary(registry, v)
    {
      var status := registry.versions[v].status;
      if status.Live() { return Some(v); }
      if status.Superseded? {
        if v.lineage in registry.active && registry.active[v.lineage].Some? {
          var active := registry.active[v.lineage].value;
          if registry.versions[active].status.Live() { return Some(active); }
        }
      }
      return None;
    }

    method FundingBeneficiary(v: VersionId) returns (error: Option<Error>, beneficiary: VersionId)
      requires Consistent(registry)
      ensures error == S.BeneficiaryError(registry, v)
      ensures error.None? ==> v in registry.versions && S.LiveBeneficiary(registry, v) == Some(beneficiary)
    {
      if v !in registry.versions { return Some(VersionNotFound), v; }
      var found := LiveBeneficiary(v);
      match found
      case Some(b) => return None, b;
      case None => return Some(NoBeneficiary), v;
    }

    method Advance(seconds: int) returns (error: Option<Error>)
      requires Valid()
      modifies this
      ensures Valid()
      ensures run == old(run) + [OnMoney(MoneyCall.Advance(seconds))]
      ensures Agrees(S.Advance(old(Snapshot()), seconds), Snapshot(), error)
    {
      hide After, Init, Consistent;
      Log(OnMoney(MoneyCall.Advance(seconds)));
      if seconds < 0 { return Some(TimeBackwards); }
      now := now + seconds;
      return None;
    }

    method AdvanceToNextEpoch() returns (error: Option<Error>)
      requires Valid()
      modifies this
      ensures Valid()
      ensures run == old(run) + [OnMoney(MoneyCall.AdvanceToNextEpoch)]
      ensures Agrees(S.AdvanceToNextEpoch(old(Snapshot())), Snapshot(), error)
    {
      hide After, Init, Consistent;
      Log(OnMoney(MoneyCall.AdvanceToNextEpoch));
      now := EpochStart(EpochAt(now) + 1);
      return None;
    }

    method Mint(account: Account, amount: int) returns (error: Option<Error>)
      requires Valid()
      modifies this
      ensures Valid()
      ensures run == old(run) + [OnMoney(MoneyCall.Mint(account, amount))]
      ensures Agrees(S.Mint(old(Snapshot()), account, amount), Snapshot(), error)
    {
      hide After, Init, Consistent;
      Log(OnMoney(MoneyCall.Mint(account, amount)));
      if amount <= 0 { return Some(AmountNotPositive); }
      bank := bank.(wallets := Bump(bank.wallets, account, amount));
      bank := bank.(minted := bank.minted + amount);
      return None;
    }

    method FundCommons(donor: Account, amount: int) returns (error: Option<Error>)
      requires Valid()
      modifies this
      ensures Valid()
      ensures run == old(run) + [OnMoney(MoneyCall.FundCommons(donor, amount))]
      ensures Agrees(S.FundCommons(old(Snapshot()), donor, amount), Snapshot(), error)
    {
      hide After, Init, Consistent;
      Log(OnMoney(MoneyCall.FundCommons(donor, amount)));
      error := DebitWallet(donor, amount);
      if error.Some? { return; }
      bank := bank.(commonsAvailable := bank.commonsAvailable + amount);
    }

    method DirectTransferToArena(donor: Account, amount: int) returns (error: Option<Error>)
      requires Valid()
      modifies this
      ensures Valid()
      ensures run == old(run) + [OnMoney(MoneyCall.DirectTransfer(donor, amount))]
      ensures Agrees(S.DirectTransfer(old(Snapshot()), donor, amount), Snapshot(), error)
    {
      hide After, Init, Consistent;
      Log(OnMoney(MoneyCall.DirectTransfer(donor, amount)));
      error := DebitWallet(donor, amount);
      if error.Some? { return; }
      bank := bank.(surplus := bank.surplus + amount);
    }

    method AbsorbSurplus() returns (error: Option<Error>, amount: int)
      requires Valid()
      modifies this
      ensures Valid()
      ensures run == old(run) + [OnMoney(MoneyCall.AbsorbSurplus)]
      ensures Agrees(S.AbsorbSurplus(old(Snapshot())), Snapshot(), error)
      ensures error.None? ==> amount == old(bank.surplus)
    {
      hide After, Init, Consistent;
      Log(OnMoney(MoneyCall.AbsorbSurplus));
      if bank.surplus <= 0 { return Some(NoSurplus), 0; }
      amount := bank.surplus;
      bank := bank.(surplus := 0);
      bank := bank.(commonsAvailable := bank.commonsAvailable + amount);
      error := None;
    }

    method Donate(donor: Account, v: VersionId, amount: int) returns (error: Option<Error>, beneficiary: VersionId)
      requires Valid()
      modifies this
      ensures Valid()
      ensures run == old(run) + [OnMoney(MoneyCall.Donate(donor, v, amount))]
      ensures Agrees(S.Donate(old(Snapshot()), donor, v, amount), Snapshot(), error)
      ensures error.None? ==> v in old(registry.versions) && S.LiveBeneficiary(old(registry), v) == Some(beneficiary)
    {
      hide After, Init, Consistent;
      Log(OnMoney(MoneyCall.Donate(donor, v, amount)));
      error, beneficiary := FundingBeneficiary(v);
      if error.Some? { return; }
      error := DebitWallet(donor, amount);
      if error.Some? { return; }
      bank := bank.(vaults := Bump(bank.vaults, beneficiary, amount));
      tally := tally.(capitalIn := Bump(tally.capitalIn, beneficiary, amount));
    }

    method CheckSigners(version: Version, amount: int, sigs: seq<Account>) returns (error: Option<Error>)
      ensures error == S.SignatureError(version, amount, sigs)
    {
      if amount > DAILY_EXPENSE_CAP / 10 {
        if sigs == [] || |set x | x in sigs| < version.threshold { return Some(MultiSigRequired); }
        for i := 0 to |sigs|
          invariant forall j | 0 <= j < i :: sigs[j] in version.signers
        {
          if sigs[i] !in version.signers { return Some(UnknownSigner); }
        }
      }
      return None;
    }

    method SettleOperatingExpense(
      operator: Account, v: VersionId, expenseId: string, recipient: Account, amount: int,
      payloadHash: string, proof: string, validProof: bool, sigs: seq<Account>)
      returns (error: Option<Error>)
      requires Valid()
      modifies this
      ensures Valid()
      ensures run == old(run) + [OnMoney(MoneyCall.SettleExpense(operator, v, expenseId, recipient, amount,
                                     payloadHash, proof, validProof, sigs))]
      ensures Agrees(S.SettleExpense(old(Snapshot()), operator, v, expenseId, recipient, amount,
                        payloadHash, proof, validProof, sigs), Snapshot(), error)
    {
      hide After, Init, Consistent, DayAt, Sum, Bump, Get, S.SignatureError;
      Log(OnMoney(MoneyCall.SettleExpense(operator, v, expenseId, recipient, amount, payloadHash, proof,
              validProof, sigs)));
      if v !in registry.versions { return Some(VersionNotFound); }
      var version := registry.versions[v];
      if v.operator != operator { return Some(NotOperator); }
      if !version.status.Live() { return Some(NotLive); }
      if amount <= 0 { return Some(AmountNotPositive); }
      if !validProof || proof == "" { return Some(InvalidExpenseProof); }
      if proof in work.proofs { return Some(ProofReplay); }
      if Get(bank.vaults, v) < amount { return Some(InsufficientVault); }
      if expenseId == "" || payloadHash == "" || recipient == "" { return Some(InvalidExpenseMetadata); }
      var today := SpendDay(v, DayAt(now));
      if Get(tally.dailyExpense, today) + amount > DAILY_EXPENSE_CAP { return Some(DailyCapExceeded); }
      error := CheckSigners(version, amount, sigs);
      if error.Some? { return; }
      work := work.(proofs := work.proofs + {proof});
      bank := bank.(vaults := Bump(bank.vaults, v, -amount));
      tally := tally.(operatingSpent := Bump(tally.operatingSpent, v, amount));
      tally := tally.(dailyExpense := Bump(tally.dailyExpense, today, amount));
      bank := bank.(wallets := Bump(bank.wallets, recipient, amount));
      return None;
    }

    method PostBond(funder: Account, v: VersionId) returns (error: Option<Error>)
      modifies this`bank, this`bonds
      ensures error == S.DebitError(old(Snapshot()).bank, funder, VERSION_BOND)
      ensures Snapshot() == if error.None? then S.PostBond(old(Snapshot()), funder, v) else old(Snapshot())
    {
      hide EpochAt, Sum, S.DebitError;
      error := DebitWallet(funder, VERSION_BOND);
      if error.Some? { return; }
      bonds := bonds.(amount := bonds.amount[v := VERSION_BOND]);
      bonds := bonds.(epoch := bonds.epoch[v := EpochAt(now)]);
      bank := bank.(commonsAvailable := bank.commonsAvailable + VERSION_BOND);
    }

    method Enlist(v: VersionId, version: Version)
      modifies this`registry
      ensures registry == S.Enroll(old(registry), v, version)
    {
      registry := registry.(versions := registry.versions[v := version]);
      var listed := if v.lineage in registry.members then registry.members[v.lineage] else [];
      registry := registry.(members := registry.members[v.lineage := listed + [v]]);
    }

    method CreateLineage(
      operator: Account, d: Declaration, salt: string, attested: bool, license: string, bondFunder: Account,
      operatorSigners: seq<Account>, threshold: int)
      returns (error: Option<Error>, v: VersionId)
      requires Valid()
      modifies this
      ensures Valid()
      ensures run == old(run) + [OnRegistry(RegistryCall.CreateLineage(operator, d, salt, attested, license,
                                     bondFunder, operatorSigners, threshold))]
      ensures Agrees(S.CreateLineage(old(Snapshot()), operator, d, salt, attested, license, bondFunder,
                        operatorSigners, threshold), Snapshot(), error)
      ensures v == S.GenesisId(operator, d, salt)
    {
      hide After, Init, Consistent, S.DeclarationError, S.SignerError, S.PostBond, S.DebitError, Sum, EpochAt;
      Log(OnRegistry(RegistryCall.CreateLineage(operator, d, salt, attested, license, bondFunder,
              operatorSigners, threshold)));
      v := S.GenesisId(operator, d, salt);
      error := S.DeclarationError(d, attested, license);
      if error.Some? { return; }
      if v.lineage in registry.active { return Some(LineageExists), v; }
      error := PostBond(S.FunderOr(bondFunder, operator), v);
      if error.Some? { return; }
      var signers := S.SignersOr(operatorSigners, operator);
      error := S.SignerError(signers, threshold, operator);
      if error.Some? { return; }
      Enlist(v, S.NewVersion(now, Active, signers, threshold));
      registry := registry.(active := registry.active[v.lineage := Some(v)]);
    }

    method RegisterVersion(
      lineage: LineageId, parent: VersionId, operator: Account, d: Declaration, salt: string, attested: bool,
      license: string, bondFunder: Account, operatorSigners: seq<Account>, threshold: int)
      returns (error: Option<Error>, v: VersionId)
      requires Valid()
      modifies this
      ensures Valid()
      ensures run == old(run) + [OnRegistry(RegistryCall.RegisterVersion(lineage, parent, operator, d, salt,
                                     attested, license, bondFunder, operatorSigners, threshold))]
      ensures Agrees(S.RegisterVersion(old(Snapshot()), lineage, parent, operator, d, salt, attested,
                        license, bondFunder, operatorSigners, threshold), Snapshot(), error)
      ensures v == VersionId(lineage, Some(parent), operator, d, salt)
    {
      hide After, Init, Consistent, S.DeclarationError, S.SignerError, S.PostBond, S.DebitError, Sum, EpochAt;
      Log(OnRegistry(RegistryCall.RegisterVersion(lineage, parent, operator, d, salt, attested, license,
              bondFunder, operatorSigners, threshold)));
      v := VersionId(lineage, Some(parent), operator, d, salt);
      if lineage !in registry.active { return Some(LineageNotFound), v; }
      if parent !in registry.versions { return Some(VersionNotFound), v; }
      if parent.lineage != lineage { return Some(ParentMismatch), v; }
      error := S.DeclarationError(d, attested, license);
      if error.Some? { return; }
      if v in registry.versions { return Some(VersionExists), v; }
      error := PostBond(S.FunderOr(bondFunder, operator), v);
      if error.Some? { return; }
      var signers := S.SignersOr(operatorSigners, operator);
      error := S.SignerError(signers, threshold, operator);
      if error.Some? { return; }
      Enlist(v, S.NewVersion(now, Incubating, signers, threshold));
    }

    method ReclaimBond(operator: Account, v: VersionId) returns (error: Option<Error>, amount: int)
      requires Valid()
      modifies this
      ensures Valid()
      ensures run == old(run) + [OnRegistry(RegistryCall.ReclaimBond(operator, v))]
      ensures Agrees(S.ReclaimBond(old(Snapshot()), operator, v), Snapshot(), error)
      ensures error.None? ==> amount == Get(old(bonds.amount), v)
    {
      hide After, Init, Consistent, EpochAt, Sum, EconomyOf;
      Log(OnRegistry(RegistryCall.ReclaimBond(operator, v)));
      amount := 0;
      if v !in registry.versions { return Some(VersionNotFound), amount; }
      if v.operator != operator { return Some(NotOperator), amount; }
      if Get(bonds.amount, v) == 0 { return Some(NoBond), amount; }
      var bonded := if v in bonds.epoch then bonds.epoch[v] else EpochAt(now);
      if EpochAt(now) <= bonded { return Some(BondLocked), amount; }
      var econ := EconomyOf(work.economies, v, EpochAt(now) - 1);
      if econ.revenue == 0 || econ.Profit() <= 0 { return Some(NoPositiveProfit), amount; }
      amount := bonds.amount[v];
      bonds := bonds.(amount := bonds.amount[v := 0]);
      if bank.commonsAvailable < amount { return Some(CommonsInsufficient), amount; }
      bank := bank.(commonsAvailable := bank.commonsAvailable - amount);
      bank := bank.(wallets := Bump(bank.wallets, operator, amount));
      return None, amount;
    }

    method Heartbeat(
      operator: Account, v: VersionId, stateHash: string, attested: bool)
      returns (error: Option<Error>)
      requires Valid()
      modifies this
      ensures Valid()
      ensures run == old(run) + [OnRegistry(RegistryCall.Heartbeat(operator, v, stateHash, attested))]
      ensures Agrees(S.Heartbeat(old(Snapshot()), operator, v, stateHash, attested), Snapshot(), error)
    {
      hide After, Init, Consistent, Sum;
      Log(OnRegistry(RegistryCall.Heartbeat(operator, v, stateHash, attested)));
      if v !in registry.versions { return Some(VersionNotFound); }
      if v.operator != operator { return Some(NotOperator); }
      if !registry.versions[v].status.Live() { return Some(NotLive); }
      if stateHash == "" { return Some(StateHashRequired); }
      if !attested { return Some(InvalidHeartbeat); }
      if HEARTBEAT_BURN > 0 {
        if Get(bank.vaults, v) < HEARTBEAT_BURN { return Some(InsufficientVault); }
        bank := bank.(vaults := Bump(bank.vaults, v, -HEARTBEAT_BURN));
        bank := bank.(commonsAvailable := bank.commonsAvailable + HEARTBEAT_BURN);
        tally := tally.(burned := tally.burned + HEARTBEAT_BURN);
      }
      registry := registry.(versions := registry.versions[v := registry.versions[v].(lastHeartbeat := now)]);
      return None;
    }

    method AuthorizeRankedJob(a: Authorization, verifierSet: seq<string>)
      returns (error: Option<Error>, id: Authorization)
      requires Valid()
      modifies this
      ensures Valid()
      ensures run == old(run) + [OnRanked(RankedCall.AuthorizeJob(a, verifierSet))]
      ensures error.None? ==> id in work.authorizations
                              && id == a.(verifierSet := if verifierSet == [] then [a.verifier] else verifierSet)
      ensures Agrees(S.AuthorizeJob(old(Snapshot()), a, verifierSet), Snapshot(), error)
    {
      hide After, Init, Consistent;
      Log(OnRanked(RankedCall.AuthorizeJob(a, verifierSet)));
      if a.reward <= 0 { return Some(AmountNotPositive), a; }
      if a.deadline <= now { return Some(DeadlinePassed), a; }
      if a.verifiedCost < 0 { return Some(NegativeCost), a; }
      if a.verifiedCost != 0 && (a.costRecipient.None? || a.costRecipient.value == "") {
        return Some(RecipientRequired), a;
      }
      if a.specHash == "" || a.verifier == "" || a.expectedResult == "" { return Some(InvalidJob), a; }
      var vset := if verifierSet == [] then [a.verifier] else verifierSet;
      if a.verifier !in vset { return Some(VerifierNotInSet), a; }
      if |set x | x in vset| != |vset| { return Some(DuplicateVerifiers), a; }
      id := a.(verifierSet := vset);
      work := work.(authorizations := work.authorizations + {id});
      error := None;
    }

    method CreateRankedJob(a: Authorization) returns (error: Option<Error>, id: RankedJobId)
      requires Valid()
      modifies this
      ensures Valid()
      ensures run == old(run) + [OnRanked(RankedCall.CreateRankedJob(a))]
      ensures Agrees(S.CreateRankedJob(old(Snapshot()), a), Snapshot(), error)
      ensures id == RankedJobId(a, old(work.nonce))
    {
      hide After, Init, Consistent, SumBy;
      Log(OnRanked(RankedCall.CreateRankedJob(a)));
      id := RankedJobId(a, work.nonce);
      if a !in work.authorizations { return Some(NotScheduled), id; }
      if a in work.used { return Some(AuthorizationReplay), id; }
      if a.deadline <= now { return Some(DeadlinePassed), id; }
      if bank.commonsAvailable < a.reward { return Some(CommonsInsufficient), id; }
      work := work.(used := work.used + {a});
      work := work.(nonce := work.nonce + 1);
      bank := bank.(commonsAvailable := bank.commonsAvailable - a.reward);
      bank := bank.(commonsReserved := bank.commonsReserved + a.reward);
      work := work.(jobs := work.jobs[id := RankedJob(a, Open)]);
      return None, id;
    }

    method SubmitRankedResult(
      operator: Account, id: RankedJobId, v: VersionId, result: string, proof: string, valid: bool)
      returns (error: Option<Error>)
      requires Valid()
      modifies this
      ensures Valid()
      ensures run == old(run) + [OnRanked(RankedCall.SubmitRanked(operator, id, v, result, proof, valid))]
      ensures Agrees(S.SubmitRanked(old(Snapshot()), operator, id, v, result, proof, valid), Snapshot(), error)
    {
      hide After, Init, Consistent, S.Settle, EpochAt, Sum, SumBy;
      Log(OnRanked(RankedCall.SubmitRanked(operator, id, v, result, proof, valid)));
      if id !in work.jobs || !work.jobs[id].status.Open? { return Some(NotOpen); }
      var job := work.jobs[id];
      if now > job.authorization.deadline { return Some(DeadlinePassed); }
      if v !in registry.versions { return Some(VersionNotFound); }
      if v.operator != operator { return Some(NotOperator); }
      if !registry.versions[v].status.Live() { return Some(NotLive); }
      if !FreshHeartbeat(registry.versions[v], now) { return Some(HeartbeatTooOld); }
      if !valid { return Some(ObjectiveProofRejected); }
      if result != job.authorization.expectedResult { return Some(WrongResult); }
      if proof == "" { return Some(ProofRequired); }
      if proof in work.proofs { return Some(ProofReplay); }
      var cost := job.authorization.verifiedCost;
      if Get(bank.vaults, v) < cost { return Some(InsufficientVault); }
      error := SettleRanked(id, v, result, proof);
    }

    method SettleRanked(id: RankedJobId, v: VersionId, result: string, proof: string) returns (error: Option<Error>)
      requires id in work.jobs && v in registry.versions
      modifies this`work, this`bank, this`registry
      ensures Agrees(S.Settle(old(Snapshot()), id, v, result, proof), Snapshot(), error)
    {
      hide EpochAt, Sum, SumBy, Bump, Get, EconomyOf;
      var a := work.jobs[id].authorization;
      var cost, epoch := a.verifiedCost, EpochAt(now);
      work := work.(proofs := work.proofs + {proof});
      work := work.(jobs := work.jobs[id := work.jobs[id].(status := Settled(v, epoch, result, proof))]);
      bank := bank.(commonsReserved := bank.commonsReserved - a.reward);
      if cost != 0 {
        bank := bank.(vaults := Bump(bank.vaults, v, -cost));
        if a.costRecipient.None? { return Some(RecipientMissing); }
        bank := bank.(wallets := Bump(bank.wallets, a.costRecipient.value, cost));
      }
      bank := bank.(vaults := Bump(bank.vaults, v, a.reward));
      var before := EconomyOf(work.economies, v, epoch);
      var econ := Economy(before.revenue + a.reward, before.cost + cost);
      EconomyAfter(work.economies, Period(v, epoch), econ, v, epoch);
      work := work.(economies := work.economies[Period(v, epoch) := econ]);
      if econ.Profit() > 0 {
        var winner := registry.versions[v].(lastPositiveProfitAt := Some(now));
        registry := registry.(versions := registry.versions[v := winner]);
      }
      return None;
    }

    method ExpireRankedJob(id: RankedJobId) returns (error: Option<Error>)
      requires Valid()
      modifies this
      ensures Valid()
      ensures run == old(run) + [OnRanked(RankedCall.ExpireRanked(id))]
      ensures Agrees(S.ExpireRanked(old(Snapshot()), id), Snapshot(), error)
    {
      hide After, Init, Consistent, SumBy;
      Log(OnRanked(RankedCall.ExpireRanked(id)));
      if id !in work.jobs || !work.jobs[id].status.Open? { return Some(NotOpen); }
      var job := work.jobs[id];
      if now <= job.authorization.deadline { return Some(DeadlineNotReached); }
      work := work.(jobs := work.jobs[id := job.(status := Expired)]);
      bank := bank.(commonsReserved := bank.commonsReserved - job.authorization.reward);
      bank := bank.(commonsAvailable := bank.commonsAvailable + job.authorization.reward);
      return None;
    }

    method OpenMarketJob(
      buyer: Account, target: VersionId, specHash: string, reward: int, deadline: int, workVerifier: string)
      returns (error: Option<Error>, id: MarketJobId)
      requires Valid()
      modifies this
      ensures Valid()
      ensures run == old(run) + [OnMarket(MarketCall.OpenMarket(buyer, target, specHash, reward, deadline,
                                     workVerifier))]
      ensures Agrees(S.OpenMarket(old(Snapshot()), buyer, target, specHash, reward, deadline, workVerifier),
                     Snapshot(), error)
      ensures id == MarketJobId(buyer, target, specHash, reward, deadline, workVerifier, old(market.nonce))
    {
      hide After, Init, Consistent, Sum, SumBy, S.LiveBeneficiary;
      Log(OnMarket(MarketCall.OpenMarket(buyer, target, specHash, reward, deadline, workVerifier)));
      id := MarketJobId(buyer, target, specHash, reward, deadline, workVerifier, market.nonce);
      var beneficiary;
      error, beneficiary := FundingBeneficiary(target);
      if error.Some? { return; }
      if reward <= 0 { return Some(AmountNotPositive), id; }
      if specHash == "" || deadline <= now { return Some(InvalidJob), id; }
      error := DebitWallet(buyer, reward);
      if error.Some? { return; }
      bank := bank.(escrow := bank.escrow + reward);
      market := market.(nonce := market.nonce + 1);
      var job := MarketJob(buyer, target, specHash, reward, deadline, workVerifier, Offered);
      market := market.(jobs := market.jobs[id := job]);
    }

    method PayMarket(id: MarketJobId, job: MarketJob, beneficiary: Option<VersionId>)
      modifies this`market, this`bank, this`tally
      ensures Snapshot() == S.PayMarket(old(Snapshot()), id, job, beneficiary)
    {
      hide Sum, SumBy;
      market := market.(jobs := market.jobs[id := job]);
      bank := bank.(escrow := bank.escrow - job.reward);
      match beneficiary
      case None => bank := bank.(commonsAvailable := bank.commonsAvailable + job.reward);
      case Some(b) =>
        bank := bank.(vaults := Bump(bank.vaults, b, job.reward));
        tally := tally.(marketRevenue := Bump(tally.marketRevenue, b, job.reward));
    }

    method SubmitMarketResult(
      operator: Account, id: MarketJobId, result: string, valid: bool)
      returns (error: Option<Error>)
      requires Valid()
      modifies this
      ensures Valid()
      ensures run == old(run) + [OnMarket(MarketCall.SubmitMarket(operator, id, result, valid))]
      ensures Agrees(S.SubmitMarket(old(Snapshot()), operator, id, result, valid), Snapshot(), error)
    {
      hide After, Init, Consistent, Sum, SumBy, S.LiveBeneficiary, S.PayMarket;
      Log(OnMarket(MarketCall.SubmitMarket(operator, id, result, valid)));
      if id !in market.jobs || !market.jobs[id].status.Offered? { return Some(NotOpen); }
      var job := market.jobs[id];
      if now > job.deadline { return Some(DeadlinePassed); }
      if result == "" { return Some(ResultRequired); }
      var performer;
      error, performer := FundingBeneficiary(job.target);
      if error.Some? { return; }
      if performer !in registry.versions { return Some(VersionNotFound); }
      if performer.operator != operator { return Some(NotOperator); }
      if !FreshHeartbeat(registry.versions[performer], now) { return Some(HeartbeatTooOld); }
      if job.workVerifier != "" && valid {
        var live := LiveBeneficiary(performer);
        PayMarket(id, job.(status := Accepted(performer, result)), S.OrElse(live, performer));
      } else {
        market := market.(jobs := market.jobs[id := job.(status := Submitted(performer, result))]);
      }
      return None;
    }

    method AcceptMarketResult(
      buyer: Account, id: MarketJobId)
      returns (error: Option<Error>, beneficiary: Option<VersionId>)
      requires Valid()
      modifies this
      ensures Valid()
      ensures run == old(run) + [OnMarket(MarketCall.AcceptMarket(buyer, id))]
      ensures Agrees(S.AcceptMarket(old(Snapshot()), buyer, id), Snapshot(), error)
      ensures error.None? ==> id in old(market.jobs) && old(market.jobs[id]).status.Submitted?
                              && old(market.jobs[id]).status.performer in old(registry.versions)
                              && beneficiary
                                 == S.LiveBeneficiary(old(registry), old(market.jobs[id]).status.performer)
    {
      hide After, Init, Consistent, Sum, SumBy, S.LiveBeneficiary, S.PayMarket;
      Log(OnMarket(MarketCall.AcceptMarket(buyer, id)));
      beneficiary := None;
      if id !in market.jobs || !market.jobs[id].status.Submitted? { return Some(NotSubmitted), None; }
      var job := market.jobs[id];
      if buyer != job.buyer { return Some(NotBuyer), None; }
      var performer := job.status.performer;
      var accepted := job.(status := Accepted(performer, job.status.resultHash));
      if performer !in registry.versions {
        market := market.(jobs := market.jobs[id := accepted]);
        bank := bank.(escrow := bank.escrow - job.reward);
        return Some(VersionNotFound), None;
      }
      beneficiary := LiveBeneficiary(performer);
      PayMarket(id, accepted, beneficiary);
      error := None;
    }

    method RefundMarketJob(buyer: Account, id: MarketJobId) returns (error: Option<Error>)
      requires Valid()
      modifies this
      ensures Valid()
      ensures run == old(run) + [OnMarket(MarketCall.RefundMarket(buyer, id))]
      ensures Agrees(S.RefundMarket(old(Snapshot()), buyer, id), Snapshot(), error)
    {
      hide After, Init, Consistent, Sum, SumBy;
      Log(OnMarket(MarketCall.RefundMarket(buyer, id)));
      if id !in market.jobs || !(market.jobs[id].status.Offered? || market.jobs[id].status.Submitted?) {
        return Some(NotRefundable);
      }
      var job := market.jobs[id];
      if buyer != job.buyer { return Some(NotBuyer); }
      if now <= job.deadline { return Some(DeadlineNotReached); }
      market := market.(jobs := market.jobs[id := job.(status := Refunded)]);
      bank := bank.(escrow := bank.escrow - job.reward);
      bank := bank.(wallets := Bump(bank.wallets, buyer, job.reward));
      return None;
    }

    static lemma ProfitsNext(economies: map<Period, Economy>, v: VersionId, end: int, i: nat)
      requires i < PROFIT_WINDOW_EPOCHS
      ensures S.ProfitsFrom(economies, v, end, i) ==
              (if end - i >= 0 then [ProfitOf(economies, v, end - i)] else []) + S.ProfitsFrom(economies, v, end, i + 1)
    {
      hide ProfitOf;
    }

    static lemma ProfitsEnd(economies: map<Period, Economy>, v: VersionId, end: int)
      ensures S.ProfitsFrom(economies, v, end, PROFIT_WINDOW_EPOCHS) == []
    {
    }

    method MedianProfit(v: VersionId, end: int) returns (median: int)
      ensures median == S.MedianProfit(work.economies, v, end)
    {
      hide ProfitOf, Medians.Sort, S.ProfitsFrom;
      var profits: seq<int> := [];
      for i := 0 to PROFIT_WINDOW_EPOCHS
        invariant profits + S.ProfitsFrom(work.economies, v, end, i) == S.Profits(work.economies, v, end)
      {
        ProfitsNext(work.economies, v, end, i);
        ghost var before, rest := profits, S.ProfitsFrom(work.economies, v, end, i + 1);
        if end - i >= 0 { profits := profits + [ProfitOf(work.economies, v, end - i)]; }
        assert profits + rest == before + S.ProfitsFrom(work.economies, v, end, i);
      }
      ProfitsEnd(work.economies, v, end);
      assert profits == S.Profits(work.economies, v, end);
      if profits == [] { return 0; }
      var sorted := Sort(profits);
      var mid := |sorted| / 2;
      if |sorted| % 2 == 1 { return sorted[mid]; }
      return (sorted[mid - 1] + sorted[mid]) / 2;
    }

    method ExecuteSupersede(challenger: VersionId, epoch: int, useMedian: bool)
      returns (error: Option<Error>, transferred: int)
      requires Consistent(registry)
      modifies this`bank, this`registry
      ensures Agrees(S.ExecuteSupersede(old(Snapshot()), challenger, epoch, useMedian), Snapshot(), error)
      ensures error.None? ==> Some(transferred) == VaultOfActive(old(Snapshot()), challenger.lineage)
    {
      hide EpochAt, Sum, ProfitOf, EconomyOf, S.MedianProfit, Lineages.Enrolled, Bump, Get, FreshHeartbeat;
      transferred := 0;
      if EpochAt(now) == 0 { return Some(NoClosedEpoch), 0; }
      if epoch != EpochAt(now) - 1 { return Some(WrongEpoch), 0; }
      if challenger !in registry.versions { return Some(VersionNotFound), 0; }
      if !registry.versions[challenger].status.Incubating? { return Some(NotIncubating), 0; }
      if !FreshHeartbeat(registry.versions[challenger], now) { return Some(HeartbeatTooOld), 0; }
      var active := if challenger.lineage in registry.active then registry.active[challenger.lineage] else None;
      if active.None? { return Some(NoIncumbent), 0; }
      var incumbent := active.value;
      if incumbent == challenger { return Some(SameVersion), 0; }
      if incumbent !in registry.versions { return Some(VersionNotFound), 0; }
      if incumbent.lineage != challenger.lineage { return Some(DifferentLineage), 0; }
      if EconomyOf(work.economies, challenger, epoch).revenue == 0 { return Some(NoRankedRevenue), 0; }
      var challengerMetric, incumbentMetric;
      if useMedian {
        challengerMetric := MedianProfit(challenger, epoch);
        incumbentMetric := MedianProfit(incumbent, epoch);
      } else {
        challengerMetric := ProfitOf(work.economies, challenger, epoch);
        incumbentMetric := ProfitOf(work.economies, incumbent, epoch);
      }
      if challengerMetric <= 0 { return Some(NoPositiveProfit), 0; }
      if challengerMetric <= incumbentMetric { return Some(NotMoreProfitable), 0; }
      transferred := Get(bank.vaults, incumbent);
      bank := bank.(vaults := Bump(bank.vaults, incumbent, -transferred));
      bank := bank.(vaults := Bump(bank.vaults, challenger, transferred));
      var replaced := registry.versions[incumbent].(status := Superseded(challenger));
      registry := registry.(versions := registry.versions[incumbent := replaced]);
      var crowned := registry.versions[challenger].(status := Active);
      registry := registry.(versions := registry.versions[challenger := crowned]);
      registry := registry.(active := registry.active[challenger.lineage := Some(challenger)]);
      error := None;
    }

    method CommitSupersede(
      challenger: VersionId, epoch: int, salt: string)
      returns (error: Option<Error>, id: CommitId)
      requires Valid()
      modifies this
      ensures Valid()
      ensures run == old(run) + [OnSelection(SelectionCall.CommitSupersede(challenger, epoch, salt))]
      ensures Agrees(S.CommitSupersede(old(Snapshot()), challenger, epoch, salt), Snapshot(), error)
      ensures id == CommitId(challenger, epoch, salt)
    {
      hide After, Init, Consistent, EpochAt;
      Log(OnSelection(SelectionCall.CommitSupersede(challenger, epoch, salt)));
      id := CommitId(challenger, epoch, salt);
      if EpochAt(now) == 0 { return Some(NoClosedEpoch), id; }
      if epoch != EpochAt(now) - 1 { return Some(WrongEpoch), id; }
      if salt == "" { return Some(SaltRequired), id; }
      if id in commits.made { return Some(CommitExists), id; }
      if challenger !in registry.versions { return Some(VersionNotFound), id; }
      commits := commits.(made := commits.made[id := Commit(challenger, epoch, now)]);
      return None, id;
    }

    method RevealSupersede(
      challenger: VersionId, epoch: int, salt: string)
      returns (error: Option<Error>, transferred: int)
      requires Valid()
      modifies this
      ensures Valid()
      ensures run == old(run) + [OnSelection(SelectionCall.RevealSupersede(challenger, epoch, salt))]
      ensures Agrees(S.RevealSupersede(old(Snapshot()), challenger, epoch, salt), Snapshot(), error)
      ensures error.None? ==> Some(transferred) == VaultOfActive(old(Snapshot()), challenger.lineage)
    {
      hide After, Init, Consistent, EpochAt, S.ExecuteSupersede;
      Log(OnSelection(SelectionCall.RevealSupersede(challenger, epoch, salt)));
      var id := CommitId(challenger, epoch, salt);
      if EpochAt(now) == 0 { return Some(NoClosedEpoch), 0; }
      if epoch != EpochAt(now) - 1 { return Some(WrongEpoch), 0; }
      if id !in commits.made { return Some(NoCommit), 0; }
      if id in commits.revealed { return Some(AlreadyRevealed), 0; }
      if now < commits.made[id].committedAt + COMMIT_PHASE_BLOCKS { return Some(RevealTooEarly), 0; }
      commits := commits.(revealed := commits.revealed + {id});
      error, transferred := ExecuteSupersede(challenger, epoch, true);
    }

    method Supersede(challenger: VersionId, epoch: int) returns (error: Option<Error>, transferred: int)
      requires Valid()
      modifies this
      ensures Valid()
      ensures run == old(run) + [OnSelection(SelectionCall.Supersede(challenger, epoch))]
      ensures Agrees(S.Supersede(old(Snapshot()), challenger, epoch), Snapshot(), error)
      ensures error.None? ==> Some(transferred) == VaultOfActive(old(Snapshot()), challenger.lineage)
    {
      hide After, Init, Consistent, S.ExecuteSupersede;
      Log(OnSelection(SelectionCall.Supersede(challenger, epoch)));
      error, transferred := ExecuteSupersede(challenger, epoch, false);
    }

    ghost function VaultOfActive(s: State, l: LineageId): Option<int> {
      match ActiveIn(s.registry, l)
      case None => None
      case Some(v) => Some(Get(s.bank.vaults, v))
    }

    method SlashBondIfUnprofitable(v: VersionId)
      modifies this`bonds
      ensures Snapshot() == S.SlashIfUnprofitable(old(Snapshot()), v)
    {
      hide EpochAt, EconomyOf;
      if Get(bonds.amount, v) == 0 { return; }
      var bonded := if v in bonds.epoch then bonds.epoch[v] else EpochAt(now);
      if EpochAt(now) - bonded >= 2 {
        var econ := EconomyOf(work.economies, v, EpochAt(now) - 1);
        if econ.revenue == 0 || econ.Profit() <= 0 { bonds := bonds.(amount := bonds.amount[v := 0]); }
      }
    }

    // The search stops at the first incubating version of the lineage that has
    // shown profit, or shows it in the current epoch.
    method FindHeir(stale: VersionId) returns (heir: Option<VersionId>)
      requires Consistent(registry)
      ensures heir == S.FirstHeir(Snapshot(), stale, MembersOf(registry, stale.lineage))
    {
      hide EpochAt, ProfitOf, Lineages.Pointed;
      heir := None;
      var listed := if stale.lineage in registry.members then registry.members[stale.lineage] else [];
      var i := 0;
      while i < |listed|
        invariant 0 <= i <= |listed|
        invariant S.FirstHeir(Snapshot(), stale, listed) == S.FirstHeir(Snapshot(), stale, listed[i..])
      {
        var v := listed[i];
        assert listed[i..][0] == v && listed[i..][1..] == listed[i + 1..];
        if v != stale {
          var version := registry.versions[v];
          if version.status.Incubating? {
            if version.lastPositiveProfitAt.Some? { return Some(v); }
            if ProfitOf(work.economies, v, EpochAt(now)) > 0 { return Some(v); }
          }
        }
        i := i + 1;
      }
    }

    method SplitVault(v: VersionId, total: int, heir: Option<VersionId>)
      modifies this`bank
      ensures bank == S.Bequeath(old(bank), v, total, heir)
    {
      hide Sum;
      bank := bank.(vaults := Bump(bank.vaults, v, -total));
      if heir.Some? && total > 0 {
        var share := total / 2;
        bank := bank.(vaults := Bump(bank.vaults, heir.value, share));
        bank := bank.(commonsAvailable := bank.commonsAvailable + (total - share));
      } else {
        bank := bank.(commonsAvailable := bank.commonsAvailable + total);
      }
    }

    method EjectStale(v: VersionId) returns (error: Option<Error>, total: int)
      requires Valid()
      modifies this
      ensures Valid()
      ensures run == old(run) + [OnSelection(SelectionCall.EjectStale(v))]
      ensures Agrees(S.EjectStale(old(Snapshot()), v), Snapshot(), error)
      ensures error.None? ==> total == Get(old(bank.vaults), v)
    {
      hide After, Init, Consistent, EpochAt, Sum, S.FirstHeir, S.SlashIfUnprofitable, S.Bequeath, Get, MembersOf;
      Log(OnSelection(SelectionCall.EjectStale(v)));
      total := 0;
      if v !in registry.versions { return Some(VersionNotFound), 0; }
      var version := registry.versions[v];
      if !version.status.Live() { return Some(NotLive), 0; }
      var reference :=
        if version.lastPositiveProfitAt.Some? then version.lastPositiveProfitAt.value else version.createdAt;
      if now <= reference + STALE_AFTER { return Some(NotStale), 0; }
      var heir := FindHeir(v);
      SlashBondIfUnprofitable(v);
      total := Get(bank.vaults, v);
      SplitVault(v, total, heir);
      registry := registry.(versions := registry.versions[v := version.(status := Stale)]);
      if v.lineage in registry.active && registry.active[v.lineage] == Some(v) {
        registry := registry.(active := registry.active[v.lineage := None]);
      }
      error := None;
    }

    method ClaimVacancy(v: VersionId, epoch: int) returns (error: Option<Error>)
      requires Valid()
      modifies this
      ensures Valid()
      ensures run == old(run) + [OnSelection(SelectionCall.ClaimVacancy(v, epoch))]
      ensures Agrees(S.ClaimVacancy(old(Snapshot()), v, epoch), Snapshot(), error)
    {
      hide After, Init, Consistent, EpochAt, EconomyOf;
      Log(OnSelection(SelectionCall.ClaimVacancy(v, epoch)));
      if EpochAt(now) == 0 { return Some(NoClosedEpoch); }
      if epoch != EpochAt(now) - 1 { return Some(WrongEpoch); }
      if v !in registry.versions { return Some(VersionNotFound); }
      if !registry.versions[v].status.Incubating? { return Some(NotIncubating); }
      if v.lineage in registry.active && registry.active[v.lineage].Some? { return Some(ActiveExists); }
      if !FreshHeartbeat(registry.versions[v], now) { return Some(HeartbeatTooOld); }
      var econ := EconomyOf(work.economies, v, epoch);
      if econ.revenue == 0 || econ.Profit() <= 0 { return Some(NoPositiveProfit); }
      registry := registry.(versions := registry.versions[v := registry.versions[v].(status := Active)]);
      registry := registry.(active := registry.active[v.lineage := Some(v)]);
      return None;
    }

    method IsRoutable(v: VersionId, epoch: int) returns (routable: bool)
      requires v in registry.versions
      ensures routable == Routing.Routable(Snapshot(), v, epoch)
    {
      hide EconomyOf;
      routable := registry.versions[v].status.Live() && EconomyOf(work.economies, v, epoch).revenue > 0
                  && ProfitOf(work.economies, v, epoch) > 0;
    }

    method RoutableCandidates(lineage: LineageId, epoch: int) returns (candidates: seq<VersionId>)
      requires Consistent(registry)
      ensures candidates == Routing.Candidates(Snapshot(), lineage, epoch)
    {
      hide Lineages.Pointed, Sorting.Select, Routing.Routable;
      var listed := if lineage in registry.members then registry.members[lineage] else [];
      ghost var p := Routing.RoutableIn(Snapshot(), epoch);
      candidates := [];
      Sorting.SelectNone(p);
      for i := 0 to |listed|
        invariant candidates == Sorting.Select(listed[..i], p)
      {
        var v := listed[i];
        Sorting.SelectNext(listed, i, p);
        var routable := IsRoutable(v, epoch);
        if routable {
          candidates := candidates + [v];
        }
      }
      assert listed[..|listed|] == listed;
    }

    method TopVersions(
      lineage: LineageId, epoch: int, digest: Routing.Digest, limit: int := TOP_ROUTING_COUNT)
      returns (top: seq<VersionId>)
      requires Valid()
      ensures top == Routing.TopVersions(Snapshot(), lineage, epoch, limit, digest)
    {
      hide Sorting.SortDown, Routing.Candidates, Consistent, After, Init;
      ReachableConsistent(start, run);
      if limit <= 0 { return []; }
      var candidates := RoutableCandidates(lineage, epoch);
      var ranked := Sorting.SortDown(candidates, Routing.RoutingKey(work.economies, epoch, digest));
      top := if limit < |ranked| then ranked[..limit] else ranked;
    }
  }

  // Whatever was called on an arena, its fields are the state its run leads to,
  // and satisfy every invariant; so every guarantee on runs is one on the object.
  lemma ArenaIsSound(a: Arena)
    requires a.Valid()
    ensures a.Snapshot() == WorldAfter(a.start, a.run).state
    ensures Safety.Sound(WorldAfter(a.start, a.run))
  {
    hide WorldAfter, After, Init, Safety.Sound;
    WorldAfterState(a.start, a.run);
    Safety.ReachableSound(a.start, a.run);
  }
}
