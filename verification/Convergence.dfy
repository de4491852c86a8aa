// Public challenges in any order settle on the most profitable contender.
module Convergence {
  import opened Options
  import opened Totals
  import opened ArenaTypes
  import S = ArenaSpec
  import opened Runs
  import opened Lineages
  import opened Medians

  // Challenges made one after another at one moment; some may be rejected.
  function Contest(s: State, challengers: seq<VersionId>, e: int): State {
    if challengers == [] then s
    else S.Supersede(Contest(s, challengers[..|challengers| - 1], e), challengers[|challengers| - 1], e).state
  }

  function Successes(s: State, challengers: seq<VersionId>, e: int, l: LineageId): nat {
    if challengers == [] then 0
    else
      var n := |challengers| - 1;
      var before := Contest(s, challengers[..n], e);
      Successes(s, challengers[..n], e, l)
      + (if challengers[n].lineage == l && S.Supersede(before, challengers[n], e).Done? then 1 else 0)
  }

  function IncubatingIn(r: Registry, l: LineageId): set<VersionId> {
    set v | v in r.versions && v.lineage == l && r.versions[v].status.Incubating?
  }

  // A version that may challenge: incubating, fresh, with positive ranked profit.
  predicate Contender(s: State, v: VersionId, e: int) {
    && v in s.registry.versions
    && s.registry.versions[v].status.Incubating?
    && FreshHeartbeat(s.registry.versions[v], s.now)
    && S.Profitable(s.work.economies, v, e)
  }

  predicate Comparable(s: State, l: LineageId, e: int) {
    S.EpochError(s, e).None? && ActiveIn(s.registry, l).Some?
  }

  function ActiveProfit(s: State, l: LineageId, e: int): int
    requires ActiveIn(s.registry, l).Some?
  {
    ProfitOf(s.work.economies, ActiveIn(s.registry, l).value, e)
  }

  ghost predicate Settled(s: State, l: LineageId, e: int) {
    forall v: VersionId | v.lineage == l :: S.Supersede(s, v, e).Raised?
  }

  ghost predicate Ordered(s: State) {
    Enrolled(s.registry) && Pointed(s.registry)
  }

  // ---- one challenge ----

  lemma RejectedIsIdle(s: State, c: VersionId, e: int)
    requires S.Supersede(s, c, e).Raised?
    ensures S.Supersede(s, c, e).state == s
  {
    hide S.ChallengeError;
  }

  // When a challenge succeeds: exactly when a contender beats the incumbent.
  lemma ChallengeSucceeds(s: State, c: VersionId, e: int)
    requires Ordered(s)
    ensures S.Supersede(s, c, e).Done? <==>
            Comparable(s, c.lineage, e) && Contender(s, c, e)
            && ProfitOf(s.work.economies, c, e) > ActiveProfit(s, c.lineage, e)
  {
    hide Enrolled, EpochAt, FreshHeartbeat, EconomyOf, S.Promote;
  }

  lemma ChallengeEffect(s: State, c: VersionId, e: int)
    requires Ordered(s) && S.Supersede(s, c, e).Done?
    ensures var t := S.Supersede(s, c, e).state;
            && t.now == s.now && t.work == s.work
            && ActiveIn(s.registry, c.lineage).Some? && ActiveIn(s.registry, c.lineage).value in s.registry.versions
            && ActiveIn(s.registry, c.lineage).value.lineage == c.lineage
            && s.registry.versions[ActiveIn(s.registry, c.lineage).value].status.Active?
            && t.registry == S.Crown(s.registry, ActiveIn(s.registry, c.lineage).value, c)
            && c in s.registry.versions && s.registry.versions[c].status.Incubating?
  {
    hide Enrolled, EpochAt, FreshHeartbeat, EconomyOf, ProfitOf;
  }

  lemma ChallengeOrdered(s: State, c: VersionId, e: int)
    requires Ordered(s)
    ensures Ordered(S.Supersede(s, c, e).state)
  {
    hide Enrolled, Pointed, S.Supersede, Allowed, Apply, WriteOf, Step;
    var a := OnSelection(SelectionCall.Supersede(c, e));
    StepFamilies(s, a);
    CallWrites(s, a);
    EnrolledKept(s.registry, WriteOf(s, a), s.now);
    PointedKept(s.registry, WriteOf(s, a), s.now);
    assert SelectionStep(s, SelectionCall.Supersede(c, e)) == S.Supersede(s, c, e);
  }

  // The vault moves whole, and the incumbent is left with nothing.
  lemma ChallengeInherits(s: State, c: VersionId, e: int)
    requires Ordered(s) && S.Supersede(s, c, e).Done?
    ensures var t := S.Supersede(s, c, e).state;
            var incumbent := ActiveIn(s.registry, c.lineage).value;
            && Get(t.bank.vaults, incumbent) == 0
            && Get(t.bank.vaults, c) == Get(s.bank.vaults, c) + Get(s.bank.vaults, incumbent)
  {
    ChallengeEffect(s, c, e);
    hide Enrolled, Pointed, EpochAt, FreshHeartbeat, EconomyOf, ProfitOf, S.Crown, Sum;
  }

  lemma IncubatingFalls(r: Registry, i: VersionId, c: VersionId, l: LineageId)
    requires i in r.versions && r.versions[i].status.Active? && c in r.versions && r.versions[c].status.Incubating?
    ensures IncubatingIn(S.Crown(r, i, c), l) == IncubatingIn(r, l) - {c}
    ensures c.lineage == l ==> |IncubatingIn(S.Crown(r, i, c), l)| == |IncubatingIn(r, l)| - 1
    ensures c.lineage != l ==> IncubatingIn(S.Crown(r, i, c), l) == IncubatingIn(r, l)
  {
    assert c.lineage == l ==> c in IncubatingIn(r, l);
  }

  // ---- strict selection ----

  // The challenger is in profit in that epoch, and has more than the incumbent.
  ghost predicate StrictlyBetter(s: State, c: VersionId, e: int) {
    && ActiveIn(s.registry, c.lineage).Some?
    && ProfitOf(s.work.economies, c, e) > 0
    && ProfitOf(s.work.economies, c, e) > ActiveProfit(s, c.lineage, e)
  }

  lemma PublicIsStrict(s: State, c: VersionId, e: int)
    requires Ordered(s) && S.Supersede(s, c, e).Done?
    ensures StrictlyBetter(s, c, e)
  {
    hide Ordered, S.Supersede, ProfitOf, S.EpochError;
    ChallengeSucceeds(s, c, e);
    ContenderProfits(s, c, e);
  }

  lemma ContenderProfits(s: State, c: VersionId, e: int)
    requires Contender(s, c, e)
    ensures ProfitOf(s.work.economies, c, e) > 0
  {
  }

  // A reveal compares medians: it keeps to strict selection exactly when the
  // public challenge would have succeeded in its place, as in epoch 0 it always does.
  lemma RevealIsStrict(s: State, c: VersionId, e: int, salt: string)
    requires S.RevealSupersede(s, c, e, salt).Done?
    ensures StrictlyBetter(s, c, e) <==> S.Supersede(s, c, e).Done?
    ensures e == 0 ==> StrictlyBetter(s, c, e)
  {
    hide EpochAt, FreshHeartbeat, S.MedianProfit, S.Promote, EconomyOf;
    if e == 0 {
      FirstMedian(s.work.economies, c);
      FirstMedian(s.work.economies, ActiveIn(s.registry, c.lineage).value);
    }
  }

  lemma FirstMedian(economies: map<Period, Economy>, v: VersionId)
    ensures S.MedianProfit(economies, v, 0) == ProfitOf(economies, v, 0)
  {
    hide Median, ProfitOf;
    S.ProfitsWindow(economies, v, 0);
    SingleMedian(ProfitOf(economies, v, 0));
  }

  // ---- any sequence of challenges ----

  lemma {:induction false} ContestOrdered(s: State, cs: seq<VersionId>, e: int)
    requires Ordered(s)
    ensures Ordered(Contest(s, cs, e))
  {
    hide Ordered, S.Supersede;
    if cs != [] {
      ContestOrdered(s, cs[..|cs| - 1], e);
      ChallengeOrdered(Contest(s, cs[..|cs| - 1], e), cs[|cs| - 1], e);
    }
  }

  // Each success uses up one incubating version, so successes are bounded.
  lemma {:induction false} ContestIsFinite(s: State, cs: seq<VersionId>, e: int, l: LineageId)
    requires Ordered(s)
    ensures Successes(s, cs, e, l) + |IncubatingIn(Contest(s, cs, e).registry, l)| == |IncubatingIn(s.registry, l)|
    ensures Successes(s, cs, e, l) <= |IncubatingIn(s.registry, l)|
  {
    hide Ordered, S.Supersede, IncubatingIn, S.Crown;
    if cs != [] {
      var n := |cs| - 1;
      var t, c := Contest(s, cs[..n], e), cs[n];
      ContestIsFinite(s, cs[..n], e, l);
      ContestOrdered(s, cs[..n], e);
      if S.Supersede(t, c, e).Done? {
        ChallengeEffect(t, c, e);
        IncubatingFalls(t.registry, ActiveIn(t.registry, c.lineage).value, c, l);
      } else {
        RejectedIsIdle(t, c, e);
      }
    }
  }

  // What every state of a contest owes to the state it began in.
  ghost predicate Progress(s: State, t: State, l: LineageId, e: int) {
    && t.now == s.now && t.work == s.work
    && Comparable(s, l, e) && Comparable(t, l, e)
    && ActiveProfit(s, l, e) <= ActiveProfit(t, l, e)
    && (ActiveIn(t.registry, l) == ActiveIn(s.registry, l)
        || (Contender(s, ActiveIn(t.registry, l).value, e) && ActiveIn(t.registry, l).value.lineage == l))
    && (forall v: VersionId | v.lineage == l && Contender(t, v, e) :: Contender(s, v, e))
    && (forall v: VersionId | v.lineage == l && Contender(s, v, e) ::
          Contender(t, v, e) || ProfitOf(s.work.economies, v, e) <= ActiveProfit(t, l, e))
  }

  // Crowning changes the candidacy of the new active version only.
  lemma CrownContenders(s: State, c: VersionId, e: int)
    requires Ordered(s) && S.Supersede(s, c, e).Done?
    ensures var t := S.Supersede(s, c, e).state;
            && (forall v: VersionId | v != c :: Contender(t, v, e) <==> Contender(s, v, e))
            && !Contender(t, c, e)
            && ActiveIn(t.registry, c.lineage) == Some(c)
            && (forall l | l != c.lineage :: ActiveIn(t.registry, l) == ActiveIn(s.registry, l))
            && S.EpochError(t, e) == S.EpochError(s, e)
  {
    hide Ordered, S.Supersede, FreshHeartbeat, S.Profitable, EpochAt;
    ChallengeEffect(s, c, e);
  }

  lemma ChallengeProgress(s: State, t: State, c: VersionId, l: LineageId, e: int)
    requires Ordered(t) && Progress(s, t, l, e)
    ensures Progress(s, S.Supersede(t, c, e).state, l, e)
    ensures S.Supersede(t, c, e).Done? && c.lineage == l ==>
            ActiveProfit(t, l, e) < ActiveProfit(S.Supersede(t, c, e).state, l, e)
  {
    hide Ordered, S.Supersede, Contender, S.EpochError, S.Crown, ActiveIn, ProfitOf;
    if S.Supersede(t, c, e).Done? {
      ChallengeEffect(t, c, e);
      CrownContenders(t, c, e);
      ChallengeSucceeds(t, c, e);
    } else {
      RejectedIsIdle(t, c, e);
    }
  }

  lemma {:induction false} ContestProgress(s: State, cs: seq<VersionId>, l: LineageId, e: int)
    requires Ordered(s) && Comparable(s, l, e)
    ensures Progress(s, Contest(s, cs, e), l, e)
  {
    hide Ordered, S.Supersede, Contender, ProfitOf, S.EpochError;
    if cs != [] {
      var n := |cs| - 1;
      ContestProgress(s, cs[..n], l, e);
      ContestOrdered(s, cs[..n], e);
      ChallengeProgress(s, Contest(s, cs[..n], e), cs[n], l, e);
    }
  }

  // ---- every contest can be settled ----

  lemma {:induction false} ContestFirst(s: State, c: VersionId, cs: seq<VersionId>, e: int)
    ensures Contest(s, [c] + cs, e) == Contest(S.Supersede(s, c, e).state, cs, e)
  {
    hide S.Supersede;
    if cs == [] {
      assert [c] + cs == [c] && [c][..0] == [];
      assert Contest(s, [], e) == s;
    } else {
      var n := |cs| - 1;
      ContestFirst(s, c, cs[..n], e);
      assert ([c] + cs)[..|cs|] == [c] + cs[..n];
    }
  }

  // From every ordered state some challenges settle a lineage, as few as it has
  // incubating versions: any challenge that succeeds uses one of them up.
  lemma {:induction false} SettledExists(s: State, l: LineageId, e: int) returns (cs: seq<VersionId>)
    requires Ordered(s)
    ensures Settled(Contest(s, cs, e), l, e)
    ensures |cs| <= |IncubatingIn(s.registry, l)|
    ensures forall c | c in cs :: c.lineage == l
    decreases |IncubatingIn(s.registry, l)|
  {
    hide Ordered, S.Supersede, IncubatingIn, S.Crown, Contest;
    if Settled(s, l, e) {
      cs := [];
      NoContest(s, e);
    } else {
      var c: VersionId :| c.lineage == l && !S.Supersede(s, c, e).Raised?;
      var t := S.Supersede(s, c, e).state;
      ChallengeEffect(s, c, e);
      IncubatingFalls(s.registry, ActiveIn(s.registry, c.lineage).value, c, l);
      ChallengeOrdered(s, c, e);
      var rest := SettledExists(t, l, e);
      ContestFirst(s, c, rest, e);
      cs := [c] + rest;
    }
  }

  lemma NoContest(s: State, e: int)
    ensures Contest(s, [], e) == s
  {
  }

  // When no challenge is left that would succeed, the active version holds the
  // best profit among the first incumbent and all contenders, whatever the order.
  lemma ContestConverges(s: State, cs: seq<VersionId>, l: LineageId, e: int)
    requires Ordered(s) && Comparable(s, l, e) && Settled(Contest(s, cs, e), l, e)
    ensures var t := Contest(s, cs, e);
            && ActiveIn(t.registry, l).Some?
            && ActiveProfit(t, l, e) >= ActiveProfit(s, l, e)
            && (forall v: VersionId | v.lineage == l && Contender(s, v, e) ::
                  ProfitOf(s.work.economies, v, e) <= ActiveProfit(t, l, e))
            && (ActiveIn(t.registry, l) == ActiveIn(s.registry, l)
                || Contender(s, ActiveIn(t.registry, l).value, e))
  {
    hide Ordered, S.Supersede, Contender, ProfitOf, S.EpochError, Contest;
    var t := Contest(s, cs, e);
    ContestProgress(s, cs, l, e);
    ContestOrdered(s, cs, e);
    forall v: VersionId | v.lineage == l && Contender(t, v, e)
      ensures ProfitOf(t.work.economies, v, e) <= ActiveProfit(t, l, e)
    {
      ChallengeSucceeds(t, v, e);
    }
  }
}
