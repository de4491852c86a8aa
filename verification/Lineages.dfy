// Who is active, who replaced whom, and who may hold money.
module Lineages {
  import opened Options
  import opened Totals
  import opened ArenaTypes
  import S = ArenaSpec
  import opened Runs
  import Sorting

  // Each lineage lists exactly its registered versions, once each.
  ghost predicate Enrolled(r: Registry) {
    && (forall v | v in r.versions :: v.lineage in r.active && v in MembersOf(r, v.lineage))
    && (forall l | l in r.members ::
          && l in r.active && Sorting.Distinct(r.members[l])
          && forall v | v in r.members[l] :: v in r.versions && v.lineage == l)
  }

  // A version is active exactly when its lineage's pointer names it.
  ghost predicate Pointed(r: Registry) {
    && (forall v | v in r.versions :: r.versions[v].status.Active? <==> ActiveIn(r, v.lineage) == Some(v))
    && (forall l | l in r.active && r.active[l].Some? ::
          r.active[l].value in r.versions && r.active[l].value.lineage == l)
  }

  ghost predicate Ranked(r: Registry, order: map<VersionId, int>) {
    && (forall v | v in order :: v in r.versions && !r.versions[v].status.Incubating? && 0 <= order[v] < |order|)
    && (forall v | v in r.versions :: r.versions[v].status.Active? || r.versions[v].status.Superseded? ==> v in order)
  }

  // The order of activation ranks every version that was ever active; a
  // successor stays in the lineage, ranks above, and succeeds one version only.
  ghost predicate Succession(r: Registry, order: map<VersionId, int>) {
    forall v | v in r.versions && r.versions[v].status.Superseded? ::
      var next := r.versions[v].status.successor;
      && v in order && next in order
      && order[v] < order[next]
      && next.lineage == v.lineage
  }

  ghost predicate Injective(r: Registry) {
    forall v, w ::
      && v in r.versions && r.versions[v].status.Superseded?
      && w in r.versions && r.versions[w].status.Superseded?
      && r.versions[v].status.successor == r.versions[w].status.successor
      ==> v == w
  }

  ghost predicate Chained(r: Registry, order: map<VersionId, int>) {
    Ranked(r, order) && Succession(r, order) && Injective(r)
  }

  ghost predicate OnlyLiveHold(s: State) {
    forall v | v in s.bank.vaults && s.bank.vaults[v] != 0 :: IsLive(s.registry, v)
  }

  // What the guards of a call, in a well-formed registry, know about its write.
  ghost predicate Allowed(r: Registry, w: Write, now: int) {
    && Applicable(r, w)
    && match w
       case Keep => true
       case Found(v, x) =>
         && v.lineage !in r.active && v !in r.versions && MembersOf(r, v.lineage) == []
         && x.status.Active? && x.createdAt == x.lastHeartbeat == now && x.lastPositiveProfitAt.None?
       case Enroll(v, x) =>
         && v.lineage in r.active && v !in r.versions
         && x.status.Incubating? && x.createdAt == x.lastHeartbeat == now && x.lastPositiveProfitAt.None?
       case Touch(v, x) =>
         var before := r.versions[v];
         && x.status == before.status && x.createdAt == before.createdAt
         && (x.lastHeartbeat == before.lastHeartbeat || x.lastHeartbeat == now)
         && (x.lastPositiveProfitAt == before.lastPositiveProfitAt || x.lastPositiveProfitAt == Some(now))
       case Crown(i, v) =>
         && i.lineage == v.lineage && r.versions[i].status.Active? && r.versions[v].status.Incubating?
         && ActiveIn(r, v.lineage) == Some(i)
       case Retire(v) => r.versions[v].status.Live()
       case Claim(v) => r.versions[v].status.Incubating? && ActiveIn(r, v.lineage).None?
  }

  lemma NewLineages(r: Registry)
    requires Enrolled(r)
    ensures forall v: VersionId | v.lineage !in r.active :: v !in r.versions && MembersOf(r, v.lineage) == []
  {
  }

  lemma RegistryCallWrites(s: State, c: RegistryCall)
    requires Enrolled(s.registry) && Pointed(s.registry)
    ensures Allowed(s.registry, WriteOf(s, OnRegistry(c)), s.now)
    ensures RegistryStep(s, c).state.registry == Apply(s.registry, WriteOf(s, OnRegistry(c)))
  {
    hide Enrolled, Pointed, S.DeclarationError, S.SignerError, S.DebitError, S.Found, S.Enroll;
    NewLineages(s.registry);
  }

  lemma RankedCallWrites(s: State, c: RankedCall)
    ensures Allowed(s.registry, WriteOf(s, OnRanked(c)), s.now)
    ensures RankedStep(s, c).state.registry == Apply(s.registry, WriteOf(s, OnRanked(c)))
  {
  }

  lemma ChallengeWrites(s: State, c: SelectionCall)
    requires Pointed(s.registry) && (c.Supersede? || c.RevealSupersede?)
    ensures Allowed(s.registry, WriteOf(s, OnSelection(c)), s.now)
    ensures SelectionStep(s, c).state.registry == Apply(s.registry, WriteOf(s, OnSelection(c)))
  {
    hide S.Metric, S.EpochError, EpochAt, FreshHeartbeat, Bump, Get, S.Crown, EconomyOf;
  }

  lemma SelectionCallWrites(s: State, c: SelectionCall)
    requires Pointed(s.registry)
    ensures Allowed(s.registry, WriteOf(s, OnSelection(c)), s.now)
    ensures SelectionStep(s, c).state.registry == Apply(s.registry, WriteOf(s, OnSelection(c)))
  {
    if c.Supersede? || c.RevealSupersede? {
      ChallengeWrites(s, c);
    } else {
      VacancyWrites(s, c);
    }
  }

  lemma VacancyWrites(s: State, c: SelectionCall)
    requires !c.Supersede? && !c.RevealSupersede?
    ensures Allowed(s.registry, WriteOf(s, OnSelection(c)), s.now)
    ensures SelectionStep(s, c).state.registry == Apply(s.registry, WriteOf(s, OnSelection(c)))
  {
    hide S.Metric, S.FirstHeir, S.Bequeath, S.SlashIfUnprofitable, S.Profitable, EpochAt, FreshHeartbeat, Bump, Get;
  }

  lemma CallWrites(s: State, a: Action)
    requires Enrolled(s.registry) && Pointed(s.registry)
    ensures Allowed(s.registry, WriteOf(s, a), s.now)
    ensures Next(s, a).registry == Apply(s.registry, WriteOf(s, a))
  {
    hide Enrolled, Pointed;
    match a
    case OnMoney(c) =>
    case OnRegistry(c) => RegistryCallWrites(s, c);
    case OnRanked(c) => RankedCallWrites(s, c);
    case OnMarket(c) =>
    case OnSelection(c) => SelectionCallWrites(s, c);
  }

  lemma RegistrationEnrolled(r: Registry, w: Write, now: int)
    requires Enrolled(r) && Allowed(r, w, now) && (w.Found? || w.Enroll?)
    ensures Enrolled(Apply(r, w))
  {
    hide Enrolled, S.Found, S.Enroll;
    NewLineages(r);
    if w.Found? { FoundingEnrolled(r, w.version, w.entry); } else { EnlistingEnrolled(r, w.version, w.entry); }
  }

  lemma EnlistingEnrolled(r: Registry, v: VersionId, x: Version)
    requires Enrolled(r) && v.lineage in r.active && v !in r.versions
    ensures Enrolled(S.Enroll(r, v, x))
  {
    assert v !in MembersOf(r, v.lineage);
  }

  lemma FoundIsEnroll(r: Registry, v: VersionId, x: Version)
    ensures S.Enroll(r.(active := r.active[v.lineage := Some(v)]), v, x) == S.Found(r, v, x)
  {
  }

  lemma FoundingEnrolled(r: Registry, v: VersionId, x: Version)
    requires Enrolled(r) && v.lineage !in r.active && v !in r.versions
    ensures Enrolled(S.Found(r, v, x))
  {
    hide S.Enroll;
    var pointed := r.(active := r.active[v.lineage := Some(v)]);
    assert Enrolled(pointed);
    EnlistingEnrolled(pointed, v, x);
    assert S.Enroll(pointed, v, x) == S.Found(r, v, x) by { FoundIsEnroll(r, v, x); }
  }

  lemma StatusEnrolled(r: Registry, w: Write, now: int)
    requires Enrolled(r) && Allowed(r, w, now) && !w.Found? && !w.Enroll?
    ensures Enrolled(Apply(r, w))
  {
    hide Enrolled, MembersOf;
    var after := Apply(r, w);
    assert after.versions.Keys == r.versions.Keys && after.members == r.members;
    if w.Claim? || w.Retire? || w.Crown? {
      assert forall l | l in r.active :: l in after.active;
      LineagesKnown(r, w.version);
      assert after.active.Keys == r.active.Keys;
    }
    SameMembers(r, after);
  }

  lemma LineagesKnown(r: Registry, v: VersionId)
    requires Enrolled(r) && v in r.versions
    ensures v.lineage in r.active
  {
  }

  lemma SameMembers(r: Registry, after: Registry)
    requires Enrolled(r)
    requires after.versions.Keys == r.versions.Keys && after.active.Keys == r.active.Keys && after.members == r.members
    ensures Enrolled(after)
  {
    assert forall v :: v in after.versions <==> v in after.versions.Keys;
    assert forall l :: l in after.active <==> l in after.active.Keys;
  }

  lemma EnrolledKept(r: Registry, w: Write, now: int)
    requires Enrolled(r) && Allowed(r, w, now)
    ensures Enrolled(Apply(r, w))
  {
    hide Enrolled, Allowed, Apply;
    if w.Found? || w.Enroll? { RegistrationEnrolled(r, w, now); } else { StatusEnrolled(r, w, now); }
  }

  lemma RetirePointed(r: Registry, v: VersionId)
    requires Pointed(r) && IsLive(r, v)
    ensures Pointed(S.Retire(r, v))
  {
  }

  lemma CrownPointed(r: Registry, w: Write, now: int)
    requires Pointed(r) && Allowed(r, w, now) && w.Crown?
    ensures Pointed(Apply(r, w))
  {
  }

  lemma EnlistingPointed(r: Registry, w: Write, now: int)
    requires Enrolled(r) && Pointed(r) && Allowed(r, w, now) && (w.Found? || w.Enroll?)
    ensures Pointed(Apply(r, w))
  {
    hide MembersOf;
    NewLineages(r);
  }

  lemma OtherPointed(r: Registry, w: Write, now: int)
    requires Enrolled(r) && Pointed(r) && Allowed(r, w, now) && (w.Keep? || w.Touch? || w.Claim?)
    ensures Pointed(Apply(r, w))
  {
    hide MembersOf;
  }

  lemma PointedKept(r: Registry, w: Write, now: int)
    requires Enrolled(r) && Pointed(r) && Allowed(r, w, now)
    ensures Pointed(Apply(r, w))
  {
    hide Enrolled, Pointed, S.Retire;
    if w.Retire? { RetirePointed(r, w.version); }
    else if w.Crown? { CrownPointed(r, w, now); }
    else if w.Found? || w.Enroll? { EnlistingPointed(r, w, now); }
    else { OtherPointed(r, w, now); }
  }

  lemma ActivationRanked(r: Registry, w: Write, order: map<VersionId, int>, now: int)
    requires Ranked(r, order) && Allowed(r, w, now) && (w.Found? || w.Crown? || w.Claim?)
    ensures Ranked(Apply(r, w), OrderAfter(order, w))
  {
    hide MembersOf, ActiveIn;
    assert w.version !in order;
  }

  lemma RankedKept(r: Registry, w: Write, order: map<VersionId, int>, now: int)
    requires Ranked(r, order) && Allowed(r, w, now)
    ensures Ranked(Apply(r, w), OrderAfter(order, w))
  {
    hide MembersOf, ActiveIn;
    if w.Found? || w.Crown? || w.Claim? {
      ActivationRanked(r, w, order, now);
    }
  }

  lemma SuccessionKept(r: Registry, w: Write, order: map<VersionId, int>, now: int)
    requires Ranked(r, order) && Succession(r, order) && Allowed(r, w, now)
    ensures Succession(Apply(r, w), OrderAfter(order, w))
  {
  }

  lemma InjectiveKept(r: Registry, w: Write, order: map<VersionId, int>, now: int)
    requires Ranked(r, order) && Succession(r, order) && Injective(r) && Allowed(r, w, now)
    ensures Injective(Apply(r, w))
  {
    hide Injective, Ranked, Succession, S.Retire;
    if w.Crown? {
      CrownInjective(r, w.incumbent, w.version, order);
    } else {
      NoneReplaced(r, w, now);
      InjectiveShrunk(r, Apply(r, w));
    }
  }

  lemma NoneReplaced(r: Registry, w: Write, now: int)
    requires Allowed(r, w, now) && !w.Crown?
    ensures forall x | x in Apply(r, w).versions && Apply(r, w).versions[x].status.Superseded? ::
              x in r.versions && Apply(r, w).versions[x].status == r.versions[x].status
  {
  }

  lemma InjectiveShrunk(r: Registry, after: Registry)
    requires Injective(r)
    requires forall x | x in after.versions && after.versions[x].status.Superseded? ::
               x in r.versions && after.versions[x].status == r.versions[x].status
    ensures Injective(after)
  {
  }

  lemma CrownInjective(r: Registry, i: VersionId, v: VersionId, order: map<VersionId, int>)
    requires Ranked(r, order) && Succession(r, order) && Injective(r)
    requires i in r.versions && v in r.versions && r.versions[v].status.Incubating? && r.versions[i].status.Active?
    ensures Injective(S.Crown(r, i, v))
  {
    hide Injective;
    assert v !in order;
    forall x | x in r.versions && r.versions[x].status.Superseded? ensures r.versions[x].status.successor != v {
    }
    InjectiveExtended(r, S.Crown(r, i, v), i, v);
  }

  // Only i gets a successor, and one that nothing had before.
  lemma InjectiveExtended(r: Registry, after: Registry, i: VersionId, v: VersionId)
    requires Injective(r) && i in r.versions && !r.versions[i].status.Superseded?
    requires i in after.versions && after.versions[i].status == Superseded(v)
    requires forall x | x in r.versions && r.versions[x].status.Superseded? :: r.versions[x].status.successor != v
    requires forall x | x in after.versions && x != i && after.versions[x].status.Superseded? ::
               x in r.versions && after.versions[x].status == r.versions[x].status
    ensures Injective(after)
  {
  }

  // ---- only live versions hold money ----

  lemma MoneyHolders(s: State, c: MoneyCall)
    requires Pointed(s.registry) && OnlyLiveHold(s)
    ensures OnlyLiveHold(MoneyStep(s, c).state)
  {
  }

  lemma RegistryHolders(s: State, c: RegistryCall)
    requires Enrolled(s.registry) && OnlyLiveHold(s)
    ensures OnlyLiveHold(RegistryStep(s, c).state)
  {
    hide Enrolled, S.DeclarationError, S.SignerError;
    NewLineages(s.registry);
  }

  lemma RankedHolders(s: State, c: RankedCall)
    requires OnlyLiveHold(s)
    ensures OnlyLiveHold(RankedStep(s, c).state)
  {
  }

  lemma MarketHolders(s: State, c: MarketCall)
    requires OnlyLiveHold(s)
    ensures OnlyLiveHold(MarketStep(s, c).state)
  {
  }

  lemma SelectionHolders(s: State, c: SelectionCall)
    requires Pointed(s.registry) && OnlyLiveHold(s)
    ensures OnlyLiveHold(SelectionStep(s, c).state)
  {
    hide S.Metric, S.SlashIfUnprofitable, EconomyOf, S.EpochError, EpochAt, FreshHeartbeat, MembersOf, Sum;
  }

  lemma HoldersKept(s: State, a: Action)
    requires Enrolled(s.registry) && Pointed(s.registry) && OnlyLiveHold(s)
    ensures OnlyLiveHold(Next(s, a))
  {
    hide OnlyLiveHold, Enrolled, Pointed, MoneyStep, RegistryStep, RankedStep, MarketStep, SelectionStep;
    match a
    case OnMoney(c) => MoneyHolders(s, c);
    case OnRegistry(c) => RegistryHolders(s, c);
    case OnRanked(c) => RankedHolders(s, c);
    case OnMarket(c) => MarketHolders(s, c);
    case OnSelection(c) => SelectionHolders(s, c);
  }

  ghost predicate Governed(w: World) {
    && Enrolled(w.state.registry)
    && Pointed(w.state.registry)
    && Chained(w.state.registry, w.history.order)
    && OnlyLiveHold(w.state)
  }

  lemma Governs(w: World, a: Action)
    requires Governed(w)
    ensures Governed(NextWorld(w, a))
  {
    hide Enrolled, Pointed, Ranked, Succession, Injective, OnlyLiveHold, Apply, WriteOf, Next, Allowed, OrderAfter;
    var r, order, now := w.state.registry, w.history.order, w.state.now;
    var write := WriteOf(w.state, a);
    CallWrites(w.state, a);
    EnrolledKept(r, write, now);
    PointedKept(r, write, now);
    RankedKept(r, write, order, now);
    SuccessionKept(r, write, order, now);
    InjectiveKept(r, write, order, now);
    HoldersKept(w.state, a);
  }

  // ---- following successors ----

  ghost function ChainEnd(r: Registry, order: map<VersionId, int>, v: VersionId): VersionId
    requires Chained(r, order) && v in r.versions
    decreases if v in order then |order| - order[v] else 0
  {
    if r.versions[v].status.Superseded? then ChainEnd(r, order, r.versions[v].status.successor) else v
  }

  lemma {:induction false} ChainEndsLiveOrStale(r: Registry, order: map<VersionId, int>, v: VersionId)
    requires Chained(r, order) && v in r.versions
    ensures var end := ChainEnd(r, order, v);
            && end in r.versions && end.lineage == v.lineage
            && !r.versions[end].status.Superseded?
            && (r.versions[v].status.Superseded? ==> r.versions[end].status.Active? || r.versions[end].status.Stale?)
    decreases if v in order then |order| - order[v] else 0
  {
    if r.versions[v].status.Superseded? {
      ChainEndsLiveOrStale(r, order, r.versions[v].status.successor);
    }
  }

  // Money sent to a replaced version reaches the version its successors lead to.
  lemma BeneficiaryIsChainEnd(r: Registry, order: map<VersionId, int>, v: VersionId)
    requires Pointed(r) && Chained(r, order)
    requires v in r.versions && r.versions[v].status.Superseded?
    requires ChainEnd(r, order, v) in r.versions && r.versions[ChainEnd(r, order, v)].status.Active?
    ensures S.LiveBeneficiary(r, v) == Some(ChainEnd(r, order, v))
  {
    ChainEndsLiveOrStale(r, order, v);
  }

  // w is reached from v by following n successors.
  ghost predicate Leads(r: Registry, v: VersionId, w: VersionId, n: nat)
    decreases n
  {
    if n == 0 then v == w
    else v in r.versions && r.versions[v].status.Superseded? && Leads(r, r.versions[v].status.successor, w, n - 1)
  }

  lemma {:induction false} SuccessorsAcyclic(
    r: Registry, order: map<VersionId, int>, v: VersionId, w: VersionId, n: nat)
    requires Chained(r, order) && n > 0 && Leads(r, v, w, n)
    ensures v in order && w in order && order[v] < order[w]
    ensures v != w
    decreases n
  {
    var next := r.versions[v].status.successor;
    if n == 1 {
      assert Leads(r, next, w, 0);
    } else {
      SuccessorsAcyclic(r, order, next, w, n - 1);
    }
  }
}
