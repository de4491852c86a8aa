// What time does to the arena: closed epochs are frozen, final statuses are
// final, and positive profit leaves a date behind.
module Chronology {
  import opened Options
  import opened Totals
  import opened ArenaTypes
  import S = ArenaSpec
  import opened Runs
  import opened Conservation
  import opened Lineages
  import opened RankedWork

  ghost predicate Booked(r: Registry, economies: map<Period, Economy>, now: int) {
    forall p | p in economies :: p.version in r.versions && p.epoch <= EpochAt(now)
  }

  // Positive profit in an epoch was last seen no earlier than that epoch began.
  ghost predicate ProfitDated(r: Registry, economies: map<Period, Economy>) {
    forall v, e {:trigger ProfitOf(economies, v, e)} | ProfitOf(economies, v, e) > 0 ::
      && v in r.versions
      && r.versions[v].lastPositiveProfitAt.Some?
      && EpochStart(e) <= r.versions[v].lastPositiveProfitAt.value
  }

  ghost predicate Past(r: Registry, now: int) {
    forall v | v in r.versions ::
      && r.versions[v].createdAt <= now
      && r.versions[v].lastHeartbeat <= now
      && (r.versions[v].lastPositiveProfitAt.Some? ==>
            r.versions[v].createdAt <= r.versions[v].lastPositiveProfitAt.value <= now)
  }

  ghost predicate Dated(r: Registry, economies: map<Period, Economy>, now: int) {
    Booked(r, economies, now) && ProfitDated(r, economies) && Past(r, now)
  }

  ghost predicate Committed(s: State) {
    && s.commits.revealed <= s.commits.made.Keys
    && forall c | c in s.commits.made ::
         && s.commits.made[c].challenger == c.challenger
         && s.commits.made[c].epoch == c.epoch
         && s.commits.made[c].committedAt <= s.now
         && EpochAt(s.commits.made[c].committedAt) == c.epoch + 1
         && c.challenger in s.registry.versions
  }

  lemma EpochBounds(now: int)
    ensures EpochStart(EpochAt(now)) <= now < EpochStart(EpochAt(now) + 1)
  {
  }

  lemma EpochMonotone(now: int, later: int)
    requires now <= later
    ensures EpochAt(now) <= EpochAt(later)
  {
  }

  lemma TimeDated(r: Registry, economies: map<Period, Economy>, now: int, later: int)
    requires Dated(r, economies, now) && now <= later
    ensures Dated(r, economies, later)
  {
  }

  lemma WriteBooked(r: Registry, w: Write, economies: map<Period, Economy>, now: int)
    requires Booked(r, economies, now) && Allowed(r, w, now)
    ensures Booked(Apply(r, w), economies, now)
  {
    hide EpochAt, MembersOf;
  }

  lemma WriteProfitDated(r: Registry, w: Write, economies: map<Period, Economy>, now: int)
    requires ProfitDated(r, economies) && Past(r, now) && Allowed(r, w, now)
    ensures ProfitDated(Apply(r, w), economies)
  {
    hide EpochStart, ProfitOf, MembersOf;
  }

  lemma WritePast(r: Registry, w: Write, now: int)
    requires Past(r, now) && Allowed(r, w, now)
    ensures Past(Apply(r, w), now)
  {
    hide MembersOf;
  }

  lemma WriteDated(r: Registry, w: Write, economies: map<Period, Economy>, now: int)
    requires Dated(r, economies, now) && Allowed(r, w, now)
    ensures Dated(Apply(r, w), economies, now)
  {
    hide Past, ProfitDated, Booked, Allowed, Apply;
    WritePast(r, w, now);
    WriteBooked(r, w, economies, now);
    WriteProfitDated(r, w, economies, now);
  }

  lemma MarkDated(r: Registry, economies: map<Period, Economy>, v: VersionId, e: int, now: int, booked: Economy)
    requires ProfitDated(r, economies) && Past(r, now) && v in r.versions && EpochStart(e) <= now
    ensures ProfitDated(S.MarkProfit(r, v, now, booked.Profit()), economies[Period(v, e) := booked])
  {
    hide EpochStart, EconomyOf;
    var after, t := economies[Period(v, e) := booked], S.MarkProfit(r, v, now, booked.Profit());
    forall x, y | ProfitOf(after, x, y) > 0
      ensures x in t.versions && t.versions[x].lastPositiveProfitAt.Some?
      ensures EpochStart(y) <= t.versions[x].lastPositiveProfitAt.value
    {
      EconomyAfter(economies, Period(v, e), booked, x, y);
      assert ProfitOf(economies, x, y) > 0 || (x == v && booked.Profit() > 0);
    }
  }

  lemma SettleDated(r: Registry, economies: map<Period, Economy>, v: VersionId, now: int, booked: Economy)
    requires Dated(r, economies, now) && v in r.versions
    ensures Dated(S.MarkProfit(r, v, now, booked.Profit()), economies[Period(v, EpochAt(now)) := booked], now)
  {
    hide ProfitDated, EpochAt, EpochStart;
    EpochBounds(now);
    MarkDated(r, economies, v, EpochAt(now), now, booked);
  }

  lemma SettleCallDated(s: State, id: RankedJobId, v: VersionId, result: string, proof: string)
    requires Dated(s.registry, s.work.economies, s.now) && Scheduled(s.work)
    requires id in s.work.jobs && v in s.registry.versions
    ensures var t := S.Settle(s, id, v, result, proof).state; Dated(t.registry, t.work.economies, s.now)
  {
    hide Dated, SumBy, S.MarkProfit, EpochAt;
    var a, before := s.work.jobs[id].authorization, EconomyOf(s.work.economies, v, EpochAt(s.now));
    SettleDated(s.registry, s.work.economies, v, s.now,
                Economy(before.revenue + a.reward, before.cost + a.verifiedCost));
  }

  lemma SubmitDated(s: State, c: RankedCall)
    requires Dated(s.registry, s.work.economies, s.now) && Scheduled(s.work) && c.SubmitRanked?
    ensures var t := RankedStep(s, c).state; Dated(t.registry, t.work.economies, s.now)
  {
    hide Dated, Scheduled, SumBy, S.Settle, EpochAt, Get, FreshHeartbeat;
    if c.job in s.work.jobs && c.version in s.registry.versions {
      SettleCallDated(s, c.job, c.version, c.result, c.proof);
    }
  }

  lemma DatedKept(s: State, a: Action)
    requires Enrolled(s.registry) && Pointed(s.registry) && Scheduled(s.work)
    requires Dated(s.registry, s.work.economies, s.now)
    ensures var t := Next(s, a); Dated(t.registry, t.work.economies, t.now)
  {
    hide Dated, Apply, Allowed, Permitted, WriteOf, Step, Scheduled, Enrolled, Pointed, RankedStep;
    CallFrame(s, a);
    if a.OnRanked? && a.ranked.SubmitRanked? {
      SubmitDated(s, a.ranked);
      StepFamilies(s, a);
    } else {
      CallDeeds(s, a);
      CallWrites(s, a);
      WriteDated(s.registry, WriteOf(s, a), s.work.economies, s.now);
      TimeDated(Next(s, a).registry, s.work.economies, s.now, Next(s, a).now);
    }
  }

  // ---- commits ----

  lemma SelectionCommitted(s: State, c: SelectionCall)
    requires Committed(s)
    ensures Committed(SelectionStep(s, c).state)
  {
    hide S.Metric, S.FirstHeir, S.Bequeath, EconomyOf, EpochStart;
  }

  lemma CommittedKept(s: State, a: Action)
    requires Enrolled(s.registry) && Pointed(s.registry) && Past(s.registry, s.now) && Committed(s)
    ensures Committed(Next(s, a))
  {
    hide Step, Enrolled, Pointed, SelectionStep, EpochAt, Past, Apply, Allowed, WriteOf;
    StepFamilies(s, a);
    CallFrame(s, a);
    if a.OnSelection? {
      SelectionCommitted(s, a.selection);
    } else {
      CallWrites(s, a);
      WriteLater(s.registry, WriteOf(s, a), s.now);
    }
  }

  // ---- what is settled stays settled ----

  ghost predicate DateLater(x: Option<int>, y: Option<int>) {
    x.Some? ==> y.Some? && x.value <= y.value
  }

  // Versions stay, superseded and stale ones as they are; dates only advance.
  ghost predicate RegistryLater(r: Registry, t: Registry) {
    forall v | v in r.versions ::
      && v in t.versions
      && t.versions[v].createdAt == r.versions[v].createdAt
      && DateLater(r.versions[v].lastPositiveProfitAt, t.versions[v].lastPositiveProfitAt)
      && (r.versions[v].status.Superseded? || r.versions[v].status.Stale? ==>
            t.versions[v].status == r.versions[v].status)
      && (r.versions[v].status.Active? ==> !t.versions[v].status.Incubating?)
  }

  // Economies of closed epochs are final.
  ghost predicate Frozen(s: State, t: State) {
    forall v, e | e < EpochAt(s.now) :: EconomyOf(t.work.economies, v, e) == EconomyOf(s.work.economies, v, e)
  }

  // A job that is no longer open never changes again.
  ghost predicate JobsLater(w: Work, t: Work) {
    forall id | id in w.jobs ::
      id in t.jobs && t.jobs[id].authorization == w.jobs[id].authorization
      && (!w.jobs[id].status.Open? ==> t.jobs[id] == w.jobs[id])
  }

  ghost predicate CommitsLater(c: Commits, d: Commits) {
    c.revealed <= d.revealed && forall id | id in c.made :: id in d.made && d.made[id] == c.made[id]
  }

  ghost predicate Later(s: State, t: State) {
    && s.now <= t.now
    && RegistryLater(s.registry, t.registry)
    && Frozen(s, t)
    && JobsLater(s.work, t.work)
    && CommitsLater(s.commits, t.commits)
  }

  lemma LaterTransitive(s: State, t: State, u: State)
    requires Later(s, t) && Later(t, u)
    ensures Later(s, u)
  {
    hide EconomyOf, EpochAt;
    EpochMonotone(s.now, t.now);
  }

  lemma WriteLater(r: Registry, w: Write, now: int)
    requires Past(r, now) && Allowed(r, w, now)
    ensures RegistryLater(r, Apply(r, w))
  {
  }

  lemma DeedLater(w: Work, d: Deed)
    requires Permitted(w, d)
    ensures JobsLater(w, Perform(w, d))
  {
    hide SumBy;
  }

  lemma DeedFrozen(s: State, d: Deed, t: State)
    requires Permitted(s.work, d) && t.work == Perform(s.work, d)
    requires d.Settle? ==> d.epoch == EpochAt(s.now)
    ensures Frozen(s, t)
  {
    hide SumBy, EpochAt;
  }

  lemma SelectionCommitsLater(s: State, c: SelectionCall)
    ensures CommitsLater(s.commits, SelectionStep(s, c).state.commits)
  {
    hide S.Metric, S.FirstHeir, S.Bequeath, EconomyOf, EpochStart;
  }

  lemma DeedEpoch(s: State, a: Action)
    ensures DeedOf(s, a).Settle? ==> DeedOf(s, a).epoch == EpochAt(s.now)
  {
    hide Step, EpochAt;
  }

  lemma CallLater(s: State, a: Action)
    requires Enrolled(s.registry) && Pointed(s.registry) && Past(s.registry, s.now) && Scheduled(s.work)
    ensures Later(s, Next(s, a))
  {
    hide Enrolled, Pointed, Past, Scheduled, Step, Apply, Allowed, WriteOf, Perform, Permitted, DeedOf, EpochAt,
      RegistryLater, JobsLater, Frozen, SelectionStep;
    StepFamilies(s, a);
    CallFrame(s, a);
    CallWrites(s, a);
    WriteLater(s.registry, WriteOf(s, a), s.now);
    CallDeeds(s, a);
    DeedEpoch(s, a);
    DeedLater(s.work, DeedOf(s, a));
    DeedFrozen(s, DeedOf(s, a), Next(s, a));
    if a.OnSelection? { SelectionCommitsLater(s, a.selection); }
  }
}
