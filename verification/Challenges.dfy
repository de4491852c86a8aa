// What a successful challenge guarantees over the rest of a run.
module Challenges {
  import opened ArenaTypes
  import S = ArenaSpec
  import opened Runs
  import opened Medians
  import opened Conservation
  import opened Lineages
  import opened Chronology
  import opened Safety

  // The state in which the i-th call of a run is made.
  ghost function At(start: int, run: seq<Action>, i: nat): State
    requires i <= |run|
  {
    WorldAfter(start, run[..i]).state
  }

  lemma AtNext(start: int, run: seq<Action>, i: nat)
    requires i < |run|
    ensures At(start, run, i + 1) == Next(At(start, run, i), run[i])
  {
    hide Next, Beginning;
    assert run[..i + 1][..i] == run[..i];
  }

  lemma StepLater(start: int, run: seq<Action>, i: nat)
    requires i < |run|
    ensures Later(At(start, run, i), At(start, run, i + 1))
  {
    hide Later, Next, Enrolled, Pointed, Chained, OnlyLiveHold, Past, Scheduled, WorldAfter, Escrowed, Solvent;
    ReachableSound(start, run[..i]);
    AtNext(start, run, i);
    CallLater(At(start, run, i), run[i]);
  }

  lemma LaterReflexive(s: State)
    ensures Later(s, s)
  {
    hide EconomyOf, EpochAt;
  }

  lemma {:induction false} RunLater(start: int, run: seq<Action>, i: nat, j: nat)
    requires i <= j <= |run|
    ensures Later(At(start, run, i), At(start, run, j))
    decreases j - i
  {
    hide Later, At;
    if i == j {
      LaterReflexive(At(start, run, i));
    } else {
      RunLater(start, run, i, j - 1);
      StepLater(start, run, j - 1);
      LaterTransitive(At(start, run, i), At(start, run, j - 1), At(start, run, j));
    }
  }

  // ---- a positive median names a positive epoch ----

  lemma PositiveMedian(economies: map<Period, Economy>, v: VersionId, end: int) returns (e: int)
    requires S.MedianProfit(economies, v, end) > 0
    ensures end - PROFIT_WINDOW_EPOCHS < e <= end && 0 <= e && ProfitOf(economies, v, e) > 0
  {
    hide ProfitOf, Median, AtLeast;
    var xs := S.Profits(economies, v, end);
    S.ProfitsWindow(economies, v, end);
    if xs == [] {
      EmptyMedian();
    }
    MedianBalanced(xs);
    var k := AtLeastWitness(xs, Median(xs));
    e := end - k;
  }

  lemma EmptyMedian()
    ensures Median([]) == 0
  {
  }

  // With a full window a positive median takes two positive epochs.
  lemma MedianTakesTwoEpochs(economies: map<Period, Economy>, v: VersionId, end: int)
    requires end >= 2 && S.MedianProfit(economies, v, end) > 0
    ensures exists d, e :: end - 2 <= d < e <= end && ProfitOf(economies, v, d) > 0 && ProfitOf(economies, v, e) > 0
  {
    hide ProfitOf, Median;
    S.ProfitsWindow(economies, v, end);
    var x, y, z := ProfitOf(economies, v, end), ProfitOf(economies, v, end - 1), ProfitOf(economies, v, end - 2);
    OutlierBounded(x, y, z);
    assert x > 0 || y > 0;
  }

  // When the median is positive: at the end of the first epoch with the profit,
  // at the end of the second when the two profits sum to 2 or more, and from
  // then on exactly when two of the three epochs are profitable.
  lemma MedianPositiveExactly(economies: map<Period, Economy>, v: VersionId, end: int)
    ensures S.MedianProfit(economies, v, end) > 0 <==>
            if end < 0 then false
            else if end == 0 then ProfitOf(economies, v, 0) > 0
            else if end == 1 then ProfitOf(economies, v, 1) + ProfitOf(economies, v, 0) >= 2
            else
              var x, y := ProfitOf(economies, v, end), ProfitOf(economies, v, end - 1);
              var z := ProfitOf(economies, v, end - 2);
              (x > 0 && y > 0) || (x > 0 && z > 0) || (y > 0 && z > 0)
  {
    hide ProfitOf, Median;
    S.ProfitsWindow(economies, v, end);
    if end < 0 {
      EmptyMedian();
    } else if end == 0 {
      SingleMedian(ProfitOf(economies, v, 0));
    } else if end == 1 {
      PairMedians(ProfitOf(economies, v, 1), ProfitOf(economies, v, 0));
    } else {
      OutlierBounded(ProfitOf(economies, v, end), ProfitOf(economies, v, end - 1), ProfitOf(economies, v, end - 2));
    }
  }

  // ---- promotion grace ----

  // A version is dated no earlier than an epoch it was profitable in, and stays so.
  lemma ProfitKeepsDate(start: int, run: seq<Action>, i: nat, j: nat, v: VersionId, e: int)
    requires i <= j <= |run| && ProfitOf(At(start, run, i).work.economies, v, e) > 0
    ensures v in At(start, run, j).registry.versions
    ensures S.StaleReference(At(start, run, j).registry.versions[v]) >= EpochStart(e)
  {
    hide At, ProfitOf, EpochStart, Frozen, JobsLater, CommitsLater, Conserved, Governed, Booked, Past;
    ReachableSound(start, run[..i]);
    AtSound(start, run, i);
    RunLater(start, run, i, j);
  }

  lemma AtSound(start: int, run: seq<Action>, i: nat)
    requires i <= |run|
    ensures var s := At(start, run, i);
            && Dated(s.registry, s.work.economies, s.now) && Committed(s)
            && Enrolled(s.registry) && Pointed(s.registry)
  {
    hide Dated, Committed, Conserved, Enrolled, Pointed, Chained, OnlyLiveHold;
    ReachableSound(start, run[..i]);
  }

  lemma EjectNeedsAge(s: State, v: VersionId)
    requires v in s.registry.versions && s.now <= S.StaleReference(s.registry.versions[v]) + STALE_AFTER
    ensures S.EjectStale(s, v).Raised? && S.EjectStale(s, v).state == s
  {
    hide S.FirstHeir, S.Bequeath, S.Retire, S.SlashIfUnprofitable;
  }

  lemma SupersedeWasProfitable(s: State, v: VersionId, e: int)
    requires S.Supersede(s, v, e).Done?
    ensures e == EpochAt(s.now) - 1 && ProfitOf(s.work.economies, v, e) > 0
  {
    hide EpochAt, S.Promote, ProfitOf, FreshHeartbeat, EconomyOf;
  }

  lemma ClaimWasProfitable(s: State, v: VersionId, e: int)
    requires S.ClaimVacancy(s, v, e).Done?
    ensures e == EpochAt(s.now) - 1 && ProfitOf(s.work.economies, v, e) > 0
  {
    hide EpochAt, S.Claim, FreshHeartbeat, EconomyOf;
  }

  // Whoever wins a challenge or claims a vacancy cannot be ejected for 16 days.
  lemma PromotionGrace(start: int, run: seq<Action>, i: nat, j: nat, v: VersionId, e: int)
    requires i < j <= |run|
    requires run[i] == OnSelection(Supersede(v, e)) || run[i] == OnSelection(ClaimVacancy(v, e))
    requires Step(At(start, run, i), run[i]).Done?
    requires At(start, run, j).now <= At(start, run, i).now + STALE_AFTER - 2 * EPOCH_LENGTH
    ensures S.EjectStale(At(start, run, j), v).Raised?
  {
    hide At, ProfitOf, S.Supersede, S.ClaimVacancy, S.StaleReference, S.EjectStale;
    var s, t := At(start, run, i), At(start, run, j);
    if run[i].selection.Supersede? { SupersedeWasProfitable(s, v, e); } else { ClaimWasProfitable(s, v, e); }
    ProfitKeepsDate(start, run, i, j, v, e);
    EpochBounds(s.now);
    EjectNeedsAge(t, v);
  }

  lemma RevealWasProfitable(s: State, v: VersionId, e: int, salt: string)
    requires S.RevealSupersede(s, v, e, salt).Done?
    ensures e == EpochAt(s.now) - 1 && S.MedianProfit(s.work.economies, v, e) > 0
  {
    hide EpochAt, S.Promote, S.MedianProfit;
  }

  // The median may rest on an older epoch, so a reveal protects for 9 days.
  lemma RevealGrace(start: int, run: seq<Action>, i: nat, j: nat, v: VersionId, e: int, salt: string)
    requires i < j <= |run| && run[i] == OnSelection(RevealSupersede(v, e, salt))
    requires Step(At(start, run, i), run[i]).Done?
    requires At(start, run, j).now <= At(start, run, i).now + STALE_AFTER - 3 * EPOCH_LENGTH
    ensures S.EjectStale(At(start, run, j), v).Raised?
  {
    hide At, ProfitOf, S.RevealSupersede, S.StaleReference, S.EjectStale, S.MedianProfit;
    var s, t := At(start, run, i), At(start, run, j);
    RevealWasProfitable(s, v, e, salt);
    var f := ProfitableEpoch(s, v, e);
    ProfitKeepsDate(start, run, i, j, v, f);
    EpochBounds(s.now);
    EjectNeedsAge(t, v);
  }

  // The profitable epoch behind a positive median closed no earlier than two before e.
  lemma ProfitableEpoch(s: State, v: VersionId, e: int) returns (f: int)
    requires S.MedianProfit(s.work.economies, v, e) > 0
    ensures ProfitOf(s.work.economies, v, f) > 0 && f >= e - 1
  {
    hide ProfitOf, Median;
    var xs := S.Profits(s.work.economies, v, e);
    S.ProfitsWindow(s.work.economies, v, e);
    if e >= 2 {
      MedianTakesTwoEpochs(s.work.economies, v, e);
      var d, g :| e - 2 <= d < g <= e && ProfitOf(s.work.economies, v, d) > 0 && ProfitOf(s.work.economies, v, g) > 0;
      f := g;
    } else {
      f := PositiveMedian(s.work.economies, v, e);
    }
  }

  // ---- commit and reveal ----

  lemma NewCommit(s: State, a: Action, id: CommitId)
    requires id !in s.commits.made && id in Next(s, a).commits.made
    ensures a == OnSelection(CommitSupersede(id.challenger, id.epoch, id.salt))
    ensures Step(s, a).Done? && Next(s, a).commits.made[id].committedAt == s.now
  {
    hide MoneyStep, RegistryStep, RankedStep, MarketStep, S.ChallengeError, S.Crown, S.FirstHeir, S.Bequeath,
      S.Retire, EpochAt;
    CallFrame(s, a);
  }

  lemma {:induction false} CommitOrigin(start: int, run: seq<Action>, j: nat, id: CommitId) returns (i: nat)
    requires j <= |run| && id in At(start, run, j).commits.made
    ensures i < j && run[i] == OnSelection(CommitSupersede(id.challenger, id.epoch, id.salt))
    ensures Step(At(start, run, i), run[i]).Done?
    ensures At(start, run, i).now == At(start, run, j).commits.made[id].committedAt
    decreases j
  {
    hide Step, RegistryLater, Frozen, JobsLater, At, Next;
    if j == 0 {
      NoCommits(start, run);
    }
    var s := At(start, run, j - 1);
    AtNext(start, run, j - 1);
    StepLater(start, run, j - 1);
    if id in s.commits.made {
      i := CommitOrigin(start, run, j - 1, id);
    } else {
      NewCommit(s, run[j - 1], id);
      i := j - 1;
    }
  }

  lemma NoCommits(start: int, run: seq<Action>)
    ensures At(start, run, 0).commits.made == map[]
  {
  }

  lemma MedianFrozen(s: State, t: State, v: VersionId, e: int)
    requires Frozen(s, t) && e < EpochAt(s.now)
    ensures S.MedianProfit(t.work.economies, v, e) == S.MedianProfit(s.work.economies, v, e)
  {
    hide EpochAt, EconomyOf, Median;
    S.ProfitsWindow(s.work.economies, v, e);
    S.ProfitsWindow(t.work.economies, v, e);
  }

  lemma RevealReads(s: State, c: VersionId, e: int, salt: string)
    requires S.RevealSupersede(s, c, e, salt).Done?
    ensures var id := CommitId(c, e, salt);
            && id in s.commits.made && id !in s.commits.revealed
            && s.commits.made[id].committedAt + COMMIT_PHASE_BLOCKS <= s.now
            && e == EpochAt(s.now) - 1
            && id in S.RevealSupersede(s, c, e, salt).state.commits.revealed
  {
    hide EpochAt, S.ChallengeError;
  }

  // A reveal follows its own commit, made in the same epoch and at least the
  // commit phase earlier, and every median it compares was already settled then.
  lemma RevealBound(start: int, run: seq<Action>, j: nat, c: VersionId, e: int, salt: string) returns (i: nat)
    requires j < |run| && run[j] == OnSelection(RevealSupersede(c, e, salt))
    requires Step(At(start, run, j), run[j]).Done?
    ensures i < j && run[i] == OnSelection(CommitSupersede(c, e, salt)) && Step(At(start, run, i), run[i]).Done?
    ensures At(start, run, i).now + COMMIT_PHASE_BLOCKS <= At(start, run, j).now
    ensures EpochAt(At(start, run, i).now) == EpochAt(At(start, run, j).now) == e + 1
    ensures forall v :: S.MedianProfit(At(start, run, i).work.economies, v, e)
                        == S.MedianProfit(At(start, run, j).work.economies, v, e)
  {
    hide At, EpochAt, S.RevealSupersede, S.MedianProfit, Frozen, RegistryLater, JobsLater, CommitsLater, Dated;
    var s := At(start, run, j);
    var id := CommitId(c, e, salt);
    RevealReads(s, c, e, salt);
    i := CommitOrigin(start, run, j, id);
    AtSound(start, run, j);
    RunLater(start, run, i, j);
    forall v ensures S.MedianProfit(At(start, run, i).work.economies, v, e) == S.MedianProfit(s.work.economies, v, e) {
      MedianFrozen(At(start, run, i), s, v, e);
    }
  }

  // No commit is revealed with success twice.
  lemma RevealOnce(start: int, run: seq<Action>, j: nat, k: nat, c: VersionId, e: int, salt: string)
    requires j < k < |run|
    requires run[j] == run[k] == OnSelection(RevealSupersede(c, e, salt))
    requires Step(At(start, run, j), run[j]).Done?
    ensures Step(At(start, run, k), run[k]).Raised?
  {
    hide At, EpochAt, S.RevealSupersede, RegistryLater, JobsLater, Frozen;
    RevealReads(At(start, run, j), c, e, salt);
    AtNext(start, run, j);
    RunLater(start, run, j + 1, k);
    if Step(At(start, run, k), run[k]).Done? {
      RevealReads(At(start, run, k), c, e, salt);
    }
  }

  // ---- heirs ----

  // The current-epoch fallback of the ejection search never decides: a version
  // with positive profit now has a date, and the date alone makes it an heir.
  lemma FallbackIsIdle(start: int, run: seq<Action>, v: VersionId)
    ensures var s := WorldAfter(start, run).state;
            S.Heir(s, v) <==> v in s.registry.versions && s.registry.versions[v].status.Incubating?
                              && s.registry.versions[v].lastPositiveProfitAt.Some?
  {
    hide ProfitOf, EpochAt, EpochStart, Booked, Past, Committed, Conserved, Governed, WorldAfter;
    ReachableSound(start, run);
  }
}
