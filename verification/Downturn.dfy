// A run that goes on where a campaign's first rival has one profitable epoch: it
// reclaims its bond on it, or loses money in the next and still wins a reveal.
module Downturn {
  import opened Options
  import opened Totals
  import opened ArenaTypes
  import S = ArenaSpec
  import opened Medians
  import opened Runs
  import opened Challenges
  import opened Bonds
  import opened Witnesses
  import Convergence

  // ---- a reclaim on the bond's own epoch ----

  lemma StillBonded(n: nat)
    requires n <= 13
    ensures Untouched(0, Campaign(), n, C)
  {
    hide At, Step, Eligible;
  }

  // In the epoch after its bond a version reclaims it without any profit there.
  lemma ReclaimsEarly()
    ensures var s := At(0, Campaign(), 11);
            && EpochAt(s.now) == 1 && S.BondEpoch(s, C) == 0
            && ProfitOf(s.work.economies, C, 1) == 0
            && Step(s, OnRegistry(ReclaimBond("o", C))).Done?
  {
    hide At, Step, Untouched, Settling, Rivalry;
    var s := At(0, Campaign(), 11);
    EpochClosed();
    StillBonded(11);
    EarlyProfits(s);
    BondExactly(0, Campaign(), 11, C);
    SettlingAt(0, Campaign(), 11);
    ReclaimPays(s);
  }

  lemma EarlyProfits(s: State)
    requires Rivalry(s, EPOCH_LENGTH, Winner(0), Winner(0), 10, 20)
    ensures C in s.registry.versions && s.registry.versions[C].createdAt == 0
    ensures EpochAt(s.now) == 1 && EpochAt(0) == 0 && s.bank.commonsAvailable >= VERSION_BOND
    ensures S.Profitable(s.work.economies, C, 0) && ProfitOf(s.work.economies, C, 1) == 0
  {
    RivalsDiffer();
  }

  lemma ReclaimPays(s: State)
    requires Settling(s) && C in s.registry.versions && s.registry.versions[C].createdAt == 0
    requires EpochAt(s.now) == 1 && EpochAt(0) == 0 && s.bank.commonsAvailable >= VERSION_BOND
    requires S.Profitable(s.work.economies, C, 0) && Get(s.bonds.amount, C) == VERSION_BOND
    ensures Step(s, OnRegistry(ReclaimBond("o", C))).Done?
    ensures S.BondEpoch(s, C) == 0
  {
    hide EpochAt, S.Profitable, Sum;
    RivalsDiffer();
    ReclaimExactly(s, "o", C);
  }

  // ---- a loss in the epoch compared ----

  const LOSS := Authorization("loss", "verifier", 1, 2 * EPOCH_LENGTH, "result", 3, Some("o"), ["verifier"])
  const LOSS_ID := RankedJobId(LOSS, 2)
  const LATE := 2 * EPOCH_LENGTH

  // The first 13 calls are the campaign's.
  function Slump(): seq<Action> {
    Campaign()[..13] + Losing()
  }

  function Losing(): seq<Action> {
    [ OnRanked(AuthorizeJob(LOSS, [])),
      OnRanked(CreateRankedJob(LOSS)),
      OnRanked(SubmitRanked("o", LOSS_ID, C, "result", "r", true)),
      OnMoney(AdvanceToNextEpoch),
      OnRegistry(Heartbeat("o", C, "h", true)),
      OnSelection(CommitSupersede(C, 1, "salt")),
      OnMoney(Advance(COMMIT_PHASE_BLOCKS)),
      OnSelection(RevealSupersede(C, 1, "salt"))
    ]
  }

  const LOSING_REVEAL := 20

  ghost predicate Losers(s: State, now: int, heartbeat: int) {
    && s.now == now
    && s.registry == Roster(Entry(Active), Winner(heartbeat), Winner(EPOCH_LENGTH))
    && s.commits == Commits(map[], {})
  }

  const EARNED := map[Period(C, 0) := Economy(10, 0), Period(D, 0) := Economy(20, 0)]
  const LOST := map[Period(C, 0) := Economy(10, 0), Period(D, 0) := Economy(20, 0), Period(C, 1) := Economy(1, 3)]

  ghost predicate Offered(s: State) {
    && Losers(s, EPOCH_LENGTH, EPOCH_LENGTH)
    && LOSS_ID in s.work.jobs && s.work.jobs[LOSS_ID] == RankedJob(LOSS, Open)
    && s.work.economies == EARNED && s.work.proofs == {"p", "q"} && Get(s.bank.vaults, C) == 9
  }

  ghost predicate Slumped(s: State, now: int, heartbeat: int, vault: int) {
    Losers(s, now, heartbeat) && s.work.economies == LOST && Get(s.bank.vaults, C) == vault
  }

  lemma SchedulesLoss(s: State)
    requires s.now == EPOCH_LENGTH
    ensures Succeeds(s, OnRanked(AuthorizeJob(LOSS, [])),
                     s.(work := s.work.(authorizations := s.work.authorizations + {LOSS})))
  {
    assert (set x | x in ["verifier"]) == {"verifier"};
  }

  lemma PostsLoss(s: State)
    requires s.now == EPOCH_LENGTH && LOSS in s.work.authorizations && LOSS !in s.work.used && s.work.nonce == 2
    requires s.bank.commonsAvailable >= 1
    ensures var t := Next(s, OnRanked(CreateRankedJob(LOSS)));
            && t == s.(work := t.work, bank := t.bank)
            && t.work.jobs == s.work.jobs[LOSS_ID := RankedJob(LOSS, Open)]
            && t.work.economies == s.work.economies && t.work.proofs == s.work.proofs
            && t.bank.vaults == s.bank.vaults
  {
    hide SumBy;
  }

  lemma OffersLoss(s: State)
    requires Rivalry(s, EPOCH_LENGTH, Winner(EPOCH_LENGTH), Winner(EPOCH_LENGTH), 9, 19)
    requires s.commits == Commits(map[], {})
    ensures Offered(Next(Next(s, Losing()[0]), Losing()[1]))
  {
    hide Step, Roster, Winner;
    RivalsDiffer();
    SchedulesLoss(s);
    PostsLoss(Next(s, Losing()[0]));
  }

  // A job that costs more than it pays leaves the date of the last profit alone.
  lemma LosesMoney(s: State)
    requires Offered(s)
    ensures Slumped(Next(s, Losing()[2]), EPOCH_LENGTH, EPOCH_LENGTH, 7)
  {
    hide SumBy, Sum;
    RivalsDiffer();
  }

  lemma ClosesLoss(s: State)
    requires Slumped(s, EPOCH_LENGTH, EPOCH_LENGTH, 7)
    ensures Slumped(Next(s, Losing()[3]), LATE, EPOCH_LENGTH, 7)
  {
    hide Roster, Winner;
  }

  lemma BeatsLate(s: State)
    requires Slumped(s, LATE, EPOCH_LENGTH, 7)
    ensures Slumped(Next(s, Losing()[4]), LATE, LATE, 6)
  {
    hide Step, S.Beat, Roster, IsLive, Sum;
    RivalsDiffer();
    BeatsRoster(Winner(EPOCH_LENGTH), Winner(EPOCH_LENGTH), LATE);
    Beats(s, C);
  }

  const LATE_COMMIT := Commits(map[CommitId(C, 1, "salt") := Commit(C, 1, LATE)], {})

  ghost predicate Trying(s: State, now: int) {
    && s.now == now
    && s.registry == Roster(Entry(Active), Winner(LATE), Winner(EPOCH_LENGTH))
    && s.commits == LATE_COMMIT && s.work.economies == LOST
  }

  lemma CommitsLate(s: State)
    requires Slumped(s, LATE, LATE, 6)
    ensures Trying(Next(s, Losing()[5]), LATE)
  {
    hide Winner;
    RivalsDiffer();
  }

  lemma WaitsLate(s: State)
    requires Trying(s, LATE)
    ensures Trying(Next(s, Losing()[6]), LATE + COMMIT_PHASE_BLOCKS)
  {
    hide Roster, Winner;
  }

  lemma LateProfits(economies: map<Period, Economy>)
    requires economies == LOST
    ensures ProfitOf(economies, C, 0) == 10 && ProfitOf(economies, C, 1) == -2
    ensures EconomyOf(economies, C, 1).revenue == 1
    ensures ProfitOf(economies, Genesis(), 0) == ProfitOf(economies, Genesis(), 1) == 0
  {
    hide ProfitOf, EconomyOf, Genesis, Rival;
    RivalsDiffer();
    ProfitsBooked(economies, C, D, Genesis());
  }

  lemma ProfitsBooked(economies: map<Period, Economy>, c: VersionId, d: VersionId, g: VersionId)
    requires c != d && c != g && d != g
    requires economies == map[Period(c, 0) := Economy(10, 0), Period(d, 0) := Economy(20, 0),
                              Period(c, 1) := Economy(1, 3)]
    ensures ProfitOf(economies, c, 0) == 10 && ProfitOf(economies, c, 1) == -2
    ensures EconomyOf(economies, c, 1).revenue == 1
    ensures ProfitOf(economies, g, 0) == ProfitOf(economies, g, 1) == 0
  {
    assert EconomyOf(economies, c, 0) == Economy(10, 0);
    assert EconomyOf(economies, c, 1) == Economy(1, 3);
    assert Period(g, 0) !in economies && Period(g, 1) !in economies;
  }

  lemma LateMedians(economies: map<Period, Economy>)
    requires economies == LOST
    ensures S.MedianProfit(economies, C, 1) == 4 && S.MedianProfit(economies, Genesis(), 1) == 0
  {
    hide Median, ProfitOf, EconomyOf;
    LateProfits(economies);
    S.ProfitsWindow(economies, C, 1);
    S.ProfitsWindow(economies, Genesis(), 1);
    PairMedians(-2, 10);
    PairMedians(0, 0);
  }

  lemma RevealsAtLoss(s: State)
    requires Trying(s, LATE + COMMIT_PHASE_BLOCKS)
    ensures Step(s, Losing()[7]).Done?
    ensures ProfitOf(s.work.economies, C, 1) < 0 && !Convergence.StrictlyBetter(s, C, 1)
  {
    hide S.MedianProfit, Bump, EconomyOf, Sum;
    RivalsDiffer();
    LateProfits(s.work.economies);
    LateMedians(s.work.economies);
  }

  lemma SamePrefix(i: nat)
    requires i <= 13
    ensures At(0, Slump(), i) == At(0, Campaign(), i)
  {
    hide WorldAfter;
    assert Slump()[..i] == Campaign()[..i];
  }

  // In a run from a fresh arena a reveal succeeds for a version that lost money
  // in the very epoch the reveal names, against an active version that did not.
  lemma LoserWinsReveal()
    ensures var s := At(0, Slump(), LOSING_REVEAL);
            && Slump()[LOSING_REVEAL] == OnSelection(RevealSupersede(C, 1, "salt"))
            && Step(s, Slump()[LOSING_REVEAL]).Done?
            && ProfitOf(s.work.economies, C, 1) < 0
            && !Convergence.StrictlyBetter(s, C, 1)
  {
    hide Next, Step, At, Campaign, Rivalry, Offered, Slumped, Trying, Convergence.StrictlyBetter, ProfitOf;
    var run := Slump();
    CampaignLength();
    forall i: nat | i < 8 ensures run[13 + i] == Losing()[i] {
    }
    SamePrefix(13);
    RivalsFresh();
    AtNext(0, run, 13);
    AtNext(0, run, 14);
    OffersLoss(At(0, run, 13));
    AtNext(0, run, 15);
    LosesMoney(At(0, run, 15));
    AtNext(0, run, 16);
    ClosesLoss(At(0, run, 16));
    AtNext(0, run, 17);
    BeatsLate(At(0, run, 17));
    AtNext(0, run, 18);
    CommitsLate(At(0, run, 18));
    AtNext(0, run, 19);
    WaitsLate(At(0, run, 19));
    RevealsAtLoss(At(0, run, LOSING_REVEAL));
  }

  lemma CampaignLength()
    ensures |Campaign()| == 19
  {
  }
}
