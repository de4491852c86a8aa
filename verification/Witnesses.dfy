// Two runs from a fresh arena: one in which a version wins a reveal on a single
// profitable epoch, is challenged away and its successor ejected, and one in
// which an eligible reclaim destroys a bond.
module Witnesses {
  import opened Options
  import opened Totals
  import opened ArenaTypes
  import S = ArenaSpec
  import opened Medians
  import opened Runs
  import opened Challenges
  import opened Bonds

  const HOME := LineageId("o", "s", "")

  function Genesis(): VersionId {
    S.GenesisId("o", EXAMPLE, "")
  }

  function Rival(salt: string): VersionId {
    VersionId(HOME, Some(Genesis()), "o", EXAMPLE, salt)
  }

  const FOUNDING := OnRegistry(CreateLineage("o", EXAMPLE, "", true, REQUIRED_LICENSE, "", [], 1))

  function Joining(salt: string): Action {
    OnRegistry(RegisterVersion(HOME, Genesis(), "o", EXAMPLE, salt, true, REQUIRED_LICENSE, "", [], 1))
  }

  function Task(spec: string, reward: int): Authorization {
    Authorization(spec, "verifier", reward, 1, "result", 0, None, ["verifier"])
  }

  function Entry(status: Status): Version {
    S.NewVersion(0, status, ["o"], 1)
  }

  ghost predicate Succeeds(s: State, a: Action, t: State) {
    Step(s, a) == Done(t)
  }

  // ---- single calls that succeed ----

  lemma Founds(s: State)
    requires s.registry == Registry(map[], map[], map[]) && Get(s.bank.wallets, "o") >= VERSION_BOND
    ensures var t := S.PostBond(s, "o", Genesis());
            Succeeds(s, FOUNDING, t.(registry := S.Found(s.registry, Genesis(), S.NewVersion(s.now, Active, ["o"], 1))))
  {
    hide S.DeclarationError, Sum, S.PostBond;
    ExampleAccepted();
  }

  lemma Registers(s: State, salt: string)
    requires HOME in s.registry.active && Genesis() in s.registry.versions && Rival(salt) !in s.registry.versions
    requires Get(s.bank.wallets, "o") >= VERSION_BOND
    ensures var t := S.PostBond(s, "o", Rival(salt));
            var entry := S.NewVersion(s.now, Incubating, ["o"], 1);
            Succeeds(s, Joining(salt), t.(registry := S.Enroll(s.registry, Rival(salt), entry)))
  {
    hide S.DeclarationError, Sum, S.PostBond;
    ExampleAccepted();
  }

  lemma Schedules(s: State, spec: string, reward: int)
    requires s.now == 0 && spec != "" && reward > 0
    ensures var a := OnRanked(AuthorizeJob(Task(spec, reward), []));
            Succeeds(s, a, s.(work := s.work.(authorizations := s.work.authorizations + {Task(spec, reward)})))
  {
    assert (set x | x in ["verifier"]) == {"verifier"};
  }

  function Posted(k: Work, spec: string, reward: int): Work {
    PutRankedJob(k, RankedJobId(Task(spec, reward), k.nonce), RankedJob(Task(spec, reward), Open))
      .(used := k.used + {Task(spec, reward)}, nonce := k.nonce + 1)
  }

  lemma Posts(s: State, spec: string, reward: int)
    requires s.now == 0 && Task(spec, reward) in s.work.authorizations && Task(spec, reward) !in s.work.used
    requires s.bank.commonsAvailable >= reward
    ensures var a := OnRanked(CreateRankedJob(Task(spec, reward)));
            Succeeds(s, a, s.(work := Posted(s.work, spec, reward),
                              bank := s.bank.(commonsAvailable := s.bank.commonsAvailable - reward,
                                              commonsReserved := s.bank.commonsReserved + reward)))
  {
    hide PutRankedJob;
  }

  // Winning a job without cost credits the reward and dates the profit.
  lemma Wins(s: State, id: RankedJobId, v: VersionId, proof: string)
    requires s.now == 0 && id in s.work.jobs && s.work.jobs[id].status.Open?
    requires s.work.jobs[id].authorization == id.authorization
    requires id.authorization == Task(id.authorization.specHash, id.authorization.reward)
    requires id.authorization.reward > 0
    requires v in s.registry.versions && v.operator == "o" && s.registry.versions[v].status.Live()
    requires s.registry.versions[v].lastHeartbeat == 0
    requires proof != "" && proof !in s.work.proofs && Period(v, 0) !in s.work.economies
    requires Get(s.bank.vaults, v) >= 0
    ensures var t := Next(s, OnRanked(SubmitRanked("o", id, v, "result", proof, true)));
            && Succeeds(s, OnRanked(SubmitRanked("o", id, v, "result", proof, true)), t)
            && t == s.(
                 work := t.work,
                 bank := s.bank.(commonsReserved := s.bank.commonsReserved - id.authorization.reward,
                                 vaults := Bump(s.bank.vaults, v, id.authorization.reward)),
                 registry := s.registry.(versions := s.registry.versions[v :=
                               s.registry.versions[v].(lastPositiveProfitAt := Some(0))]))
            && t.work.proofs == s.work.proofs + {proof}
            && t.work.economies == s.work.economies[Period(v, 0) := Economy(id.authorization.reward, 0)]
            && t.work.jobs == s.work.jobs[id := s.work.jobs[id].(status := Settled(v, 0, "result", proof))]
            && t.work.used == s.work.used && t.work.nonce == s.work.nonce
  {
    hide SumBy, Sum;
  }

  lemma Beats(s: State, v: VersionId)
    requires IsLive(s.registry, v) && v.operator == "o" && Get(s.bank.vaults, v) >= HEARTBEAT_BURN
    ensures Succeeds(s, OnRegistry(Heartbeat("o", v, "h", true)), s.(
              bank := s.bank.(vaults := Bump(s.bank.vaults, v, -HEARTBEAT_BURN),
                              commonsAvailable := s.bank.commonsAvailable + HEARTBEAT_BURN),
              tally := s.tally.(burned := s.tally.burned + HEARTBEAT_BURN),
              registry := S.Beat(s.registry, v, s.now)))
  {
    hide Bump, S.Beat;
  }

  lemma Tomorrow(s: State)
    requires s.now == 0
    ensures Succeeds(s, OnMoney(AdvanceToNextEpoch), s.(now := EPOCH_LENGTH))
  {
  }

  // ---- the campaign ----

  const FIRST := Task("first", 10)
  const SECOND := Task("second", 20)
  const C := Rival("c")
  const D := Rival("d")

  // Two rivals register beside the first version, win 10 and 20 in epoch 0, and
  // in epoch 1 the first wins a reveal, the second challenges it, and is at last
  // ejected.
  function Campaign(): seq<Action> {
    [ OnMoney(Mint("o", 3 * VERSION_BOND)),
      FOUNDING,
      Joining("c"),
      Joining("d"),
      OnRanked(AuthorizeJob(FIRST, [])),
      OnRanked(CreateRankedJob(FIRST)),
      OnRanked(AuthorizeJob(SECOND, [])),
      OnRanked(CreateRankedJob(SECOND)),
      OnRanked(SubmitRanked("o", RankedJobId(FIRST, 0), C, "result", "p", true)),
      OnRanked(SubmitRanked("o", RankedJobId(SECOND, 1), D, "result", "q", true)),
      OnMoney(AdvanceToNextEpoch),
      OnRegistry(Heartbeat("o", C, "h", true)),
      OnRegistry(Heartbeat("o", D, "h", true)),
      OnSelection(CommitSupersede(C, 0, "salt")),
      OnMoney(Advance(COMMIT_PHASE_BLOCKS)),
      OnSelection(RevealSupersede(C, 0, "salt")),
      OnSelection(Supersede(D, 0)),
      OnMoney(Advance(STALE_AFTER)),
      OnSelection(EjectStale(D))
    ]
  }

  const REVEAL := 15
  const CHALLENGE := 16
  const EJECTION := 18

  function Roster(g: Version, c: Version, d: Version): Registry {
    Registry(map[Genesis() := g, C := c, D := d], map[HOME := Some(Genesis())], map[HOME := [Genesis(), C, D]])
  }

  lemma RivalsDiffer()
    ensures Genesis() != C && Genesis() != D && C != D
    ensures C.lineage == D.lineage == Genesis().lineage == HOME
    ensures C.operator == D.operator == "o"
  {
  }

  lemma RosterUpdates(g: Version, c: Version, d: Version, x: Version)
    ensures var r := Roster(g, c, d);
            && r.(versions := r.versions[C := x]) == Roster(g, x, d)
            && r.(versions := r.versions[D := x]) == Roster(g, c, x)
  {
    RivalsDiffer();
  }

  const NO_WORK := Work({}, {}, map[], 0, map[], {})

  ghost predicate Funds(s: State, wallet: int, commons: int) {
    && s.now == 0 && s.work == NO_WORK && s.commits == Commits(map[], {})
    && s.bank.vaults == map[]
    && Get(s.bank.wallets, "o") == wallet && s.bank.commonsAvailable == commons
  }

  ghost predicate Alone(s: State) {
    && Funds(s, 2 * VERSION_BOND, VERSION_BOND)
    && s.registry == Registry(map[Genesis() := Entry(Active)], map[HOME := Some(Genesis())], map[HOME := [Genesis()]])
  }

  ghost predicate Paired(s: State) {
    && Funds(s, VERSION_BOND, 2 * VERSION_BOND)
    && s.registry == Registry(map[Genesis() := Entry(Active), C := Entry(Incubating)],
                              map[HOME := Some(Genesis())], map[HOME := [Genesis(), C]])
  }

  ghost predicate Mustered(s: State) {
    && Funds(s, 0, 3 * VERSION_BOND)
    && s.registry == Roster(Entry(Active), Entry(Incubating), Entry(Incubating))
  }

  lemma Opens(s: State)
    requires s == Init(0)
    ensures var t := Next(s, OnMoney(Mint("o", 3 * VERSION_BOND)));
            Funds(t, 3 * VERSION_BOND, 0) && t.registry == Registry(map[], map[], map[])
  {
  }

  lemma Funded(s: State, v: VersionId, wallet: int, commons: int)
    requires Funds(s, wallet, commons)
    ensures Funds(S.PostBond(s, "o", v), wallet - VERSION_BOND, commons + VERSION_BOND)
    ensures S.PostBond(s, "o", v).registry == s.registry
  {
  }

  lemma StandsAlone(s: State)
    requires Funds(s, 3 * VERSION_BOND, 0) && s.registry == Registry(map[], map[], map[])
    ensures Alone(Next(s, Campaign()[1]))
  {
    hide Step, S.PostBond;
    Founds(s);
    Funded(s, Genesis(), 3 * VERSION_BOND, 0);
    assert Campaign()[1] == FOUNDING;
    assert [] + [Genesis()] == [Genesis()];
  }

  lemma Pairs(s: State)
    requires Alone(s)
    ensures Paired(Next(s, Campaign()[2]))
  {
    hide Step, S.PostBond;
    RivalsDiffer();
    Registers(s, "c");
    Funded(s, C, 2 * VERSION_BOND, VERSION_BOND);
    assert Campaign()[2] == Joining("c");
    assert [Genesis()] + [C] == [Genesis(), C];
  }

  lemma Musters(s: State)
    requires Paired(s)
    ensures Mustered(Next(s, Campaign()[3]))
  {
    hide Step, S.PostBond;
    RivalsDiffer();
    Registers(s, "d");
    Funded(s, D, VERSION_BOND, 2 * VERSION_BOND);
    assert Campaign()[3] == Joining("d");
    assert [Genesis(), C] + [D] == [Genesis(), C, D];
  }

  lemma Muster()
    ensures Mustered(At(0, Campaign(), 4))
  {
    hide Next, At, Alone, Paired, Mustered, Funds;
    var run := Campaign();
    FirstState(run);
    Opens(At(0, run, 0));
    AtNext(0, run, 0);
    StandsAlone(At(0, run, 1));
    AtNext(0, run, 1);
    Pairs(At(0, run, 2));
    AtNext(0, run, 2);
    Musters(At(0, run, 3));
    AtNext(0, run, 3);
  }

  lemma FirstState(run: seq<Action>)
    ensures At(0, run, 0) == Init(0)
  {
  }

  // ---- two jobs are posted and won ----

  const FIRST_ID := RankedJobId(FIRST, 0)
  const SECOND_ID := RankedJobId(SECOND, 1)

  ghost predicate Posting(s: State, w: Work, commons: int) {
    && s.now == 0 && s.work == w && s.commits == Commits(map[], {})
    && s.registry == Roster(Entry(Active), Entry(Incubating), Entry(Incubating))
    && s.bank.vaults == map[] && s.bank.commonsAvailable == commons
  }

  const ONE_SCHEDULED := Work({FIRST}, {}, map[], 0, map[], {})
  const ONE_POSTED := Work({FIRST}, {FIRST}, map[FIRST_ID := RankedJob(FIRST, Open)], 1, map[], {})
  const TWO_SCHEDULED := ONE_POSTED.(authorizations := {FIRST, SECOND})
  const TWO_POSTED := Work({FIRST, SECOND}, {FIRST, SECOND},
                           map[FIRST_ID := RankedJob(FIRST, Open), SECOND_ID := RankedJob(SECOND, Open)], 2, map[], {})

  lemma Scheduling(s: State)
    ensures Posting(s, NO_WORK, 3 * VERSION_BOND)
            ==> Posting(Next(s, Campaign()[4]), ONE_SCHEDULED, 3 * VERSION_BOND)
    ensures Posting(s, ONE_POSTED, 3 * VERSION_BOND - 10)
            ==> Posting(Next(s, Campaign()[6]), TWO_SCHEDULED, 3 * VERSION_BOND - 10)
  {
    hide Step, Roster;
    if s.now == 0 {
      Schedules(s, "first", 10);
      Schedules(s, "second", 20);
    }
    assert {} + {FIRST} == {FIRST} && {FIRST} + {SECOND} == {FIRST, SECOND};
  }

  lemma PostingFirst(s: State)
    requires Posting(s, ONE_SCHEDULED, 3 * VERSION_BOND)
    ensures Posting(Next(s, Campaign()[5]), ONE_POSTED, 3 * VERSION_BOND - 10)
  {
    hide Step, Roster;
    Posts(s, "first", 10);
    assert {} + {FIRST} == {FIRST};
  }

  lemma PostingSecond(s: State)
    requires Posting(s, TWO_SCHEDULED, 3 * VERSION_BOND - 10)
    ensures Posting(Next(s, Campaign()[7]), TWO_POSTED, 3 * VERSION_BOND - 30)
  {
    hide Step, Roster;
    Posts(s, "second", 20);
    assert {FIRST} + {SECOND} == {FIRST, SECOND};
  }

  lemma JobsPosted()
    ensures Posting(At(0, Campaign(), 8), TWO_POSTED, 3 * VERSION_BOND - 30)
  {
    hide Next, At, Posting;
    var run := Campaign();
    Muster();
    MusteredPosting(At(0, run, 4));
    AtNext(0, run, 4);
    Scheduling(At(0, run, 4));
    AtNext(0, run, 5);
    PostingFirst(At(0, run, 5));
    AtNext(0, run, 6);
    Scheduling(At(0, run, 6));
    AtNext(0, run, 7);
    PostingSecond(At(0, run, 7));
  }

  lemma MusteredPosting(s: State)
    requires Mustered(s)
    ensures Posting(s, NO_WORK, 3 * VERSION_BOND)
  {
  }

  function Winner(heartbeat: int): Version {
    Version(0, heartbeat, Some(0), Incubating, ["o"], 1)
  }

  ghost predicate HalfWon(s: State) {
    && s.now == 0 && s.commits == Commits(map[], {})
    && s.registry == Roster(Entry(Active), Winner(0), Entry(Incubating))
    && s.bank.vaults == map[C := 10]
    && s.work.economies == map[Period(C, 0) := Economy(10, 0)]
    && s.work.proofs == {"p"} && s.work.used == {FIRST, SECOND} && s.work.nonce == 2
    && s.bank.commonsAvailable >= 2 * VERSION_BOND
    && SECOND_ID in s.work.jobs && s.work.jobs[SECOND_ID] == RankedJob(SECOND, Open)
  }

  // Both rivals are in profit for epoch 0, and for no other.
  ghost predicate Rivalry(s: State, now: int, c: Version, d: Version, vaultC: int, vaultD: int) {
    && s.now == now
    && s.registry == Roster(Entry(Active), c, d)
    && s.bank.vaults == map[C := vaultC, D := vaultD]
    && s.bank.commonsAvailable >= 2 * VERSION_BOND
    && s.work.used == {FIRST, SECOND} && s.work.proofs == {"p", "q"} && s.work.nonce == 2
    && s.work.economies == map[Period(C, 0) := Economy(10, 0), Period(D, 0) := Economy(20, 0)]
  }

  lemma WinsFirst(s: State)
    requires Posting(s, TWO_POSTED, 3 * VERSION_BOND - 30)
    ensures HalfWon(Next(s, Campaign()[8]))
  {
    hide Step;
    RivalsDiffer();
    Wins(s, FIRST_ID, C, "p");
    RosterUpdates(Entry(Active), Entry(Incubating), Entry(Incubating), Winner(0));
  }

  lemma WinsSecond(s: State)
    requires HalfWon(s)
    ensures Rivalry(Next(s, Campaign()[9]), 0, Winner(0), Winner(0), 10, 20)
    ensures Next(s, Campaign()[9]).commits == Commits(map[], {})
  {
    hide Step;
    RivalsDiffer();
    Wins(s, SECOND_ID, D, "q");
    RosterUpdates(Entry(Active), Winner(0), Entry(Incubating), Winner(0));
  }

  // ---- the next epoch ----

  const MADE := Commits(map[CommitId(C, 0, "salt") := Commit(C, 0, EPOCH_LENGTH)], {})

  lemma NextEpoch(s: State)
    requires Rivalry(s, 0, Winner(0), Winner(0), 10, 20)
    ensures var t := Next(s, Campaign()[10]);
            Rivalry(t, EPOCH_LENGTH, Winner(0), Winner(0), 10, 20) && t.commits == s.commits
  {
    hide Step, Roster, Winner;
    Tomorrow(s);
  }

  lemma BeatsRoster(c: Version, d: Version, now: int)
    ensures c.status.Live() ==> IsLive(Roster(Entry(Active), c, d), C)
    ensures d.status.Live() ==> IsLive(Roster(Entry(Active), c, d), D)
    ensures var r := Roster(Entry(Active), c, d);
            && S.Beat(r, C, now) == Roster(Entry(Active), c.(lastHeartbeat := now), d)
            && S.Beat(r, D, now) == Roster(Entry(Active), c, d.(lastHeartbeat := now))
  {
    RivalsDiffer();
    RosterUpdates(Entry(Active), c, d, c.(lastHeartbeat := now));
    RosterUpdates(Entry(Active), c, d, d.(lastHeartbeat := now));
  }

  lemma BurnsOne(c: int, d: int)
    ensures Bump(map[C := c, D := d], C, -1) == map[C := c - 1, D := d]
    ensures Bump(map[C := c, D := d], D, -1) == map[C := c, D := d - 1]
  {
    hide Sum;
    RivalsDiffer();
  }

  lemma FirstBeats(s: State)
    requires Rivalry(s, EPOCH_LENGTH, Winner(0), Winner(0), 10, 20)
    ensures var t := Next(s, Campaign()[11]);
            Rivalry(t, EPOCH_LENGTH, Winner(EPOCH_LENGTH), Winner(0), 9, 20) && t.commits == s.commits
  {
    hide Step, S.Beat, Bump, Roster, IsLive;
    RivalsDiffer();
    BurnsOne(10, 20);
    BeatsRoster(Winner(0), Winner(0), EPOCH_LENGTH);
    Beats(s, C);
  }

  lemma SecondBeats(s: State)
    requires Rivalry(s, EPOCH_LENGTH, Winner(EPOCH_LENGTH), Winner(0), 9, 20)
    ensures var t := Next(s, Campaign()[12]);
            Rivalry(t, EPOCH_LENGTH, Winner(EPOCH_LENGTH), Winner(EPOCH_LENGTH), 9, 19) && t.commits == s.commits
  {
    hide Step, S.Beat, Bump, Roster, IsLive;
    RivalsDiffer();
    BurnsOne(9, 20);
    BeatsRoster(Winner(EPOCH_LENGTH), Winner(0), EPOCH_LENGTH);
    Beats(s, D);
  }

  lemma CommitsFirst(s: State)
    requires Rivalry(s, EPOCH_LENGTH, Winner(EPOCH_LENGTH), Winner(EPOCH_LENGTH), 9, 19)
    requires s.commits == Commits(map[], {})
    ensures var t := Next(s, Campaign()[13]);
            && Rivalry(t, EPOCH_LENGTH, Winner(EPOCH_LENGTH), Winner(EPOCH_LENGTH), 9, 19) && t.commits == MADE
  {
    hide Winner;
    RivalsDiffer();
  }

  lemma Waits(s: State)
    requires Rivalry(s, EPOCH_LENGTH, Winner(EPOCH_LENGTH), Winner(EPOCH_LENGTH), 9, 19) && s.commits == MADE
    ensures Revealing(Next(s, Campaign()[14]))
  {
    hide Roster, Winner;
  }

  ghost predicate Revealing(s: State) {
    && Rivalry(s, EPOCH_LENGTH + COMMIT_PHASE_BLOCKS, Winner(EPOCH_LENGTH), Winner(EPOCH_LENGTH), 9, 19)
    && s.commits == MADE
  }

  // The state in which the first rival beats in epoch 1, and after both have.
  lemma EpochClosed()
    ensures var s := At(0, Campaign(), 11);
            Rivalry(s, EPOCH_LENGTH, Winner(0), Winner(0), 10, 20) && s.commits == Commits(map[], {})
  {
    hide Next, At, Posting, HalfWon, Rivalry;
    var run := Campaign();
    JobsPosted();
    WinsFirst(At(0, run, 8));
    AtNext(0, run, 8);
    WinsSecond(At(0, run, 9));
    AtNext(0, run, 9);
    NextEpoch(At(0, run, 10));
    AtNext(0, run, 10);
  }

  lemma RivalsFresh()
    ensures var s := At(0, Campaign(), 13);
            && Rivalry(s, EPOCH_LENGTH, Winner(EPOCH_LENGTH), Winner(EPOCH_LENGTH), 9, 19)
            && s.commits == Commits(map[], {})
  {
    hide Next, At, Rivalry;
    var run := Campaign();
    EpochClosed();
    FirstBeats(At(0, run, 11));
    AtNext(0, run, 11);
    SecondBeats(At(0, run, 12));
    AtNext(0, run, 12);
  }

  lemma ReadyToReveal()
    ensures Revealing(At(0, Campaign(), REVEAL))
  {
    hide Next, At, Rivalry, Revealing;
    var run := Campaign();
    RivalsFresh();
    CommitsFirst(At(0, run, 13));
    AtNext(0, run, 13);
    Waits(At(0, run, 14));
    AtNext(0, run, 14);
  }

  // ---- reveal, challenge, ejection ----

  lemma RivalProfits(s: State)
    requires Revealing(s)
    ensures ProfitOf(s.work.economies, C, 0) == 10 && ProfitOf(s.work.economies, Genesis(), 0) == 0
  {
    hide Roster, Winner;
    RivalsDiffer();
  }

  lemma RivalMedians(s: State)
    requires Revealing(s)
    ensures S.MedianProfit(s.work.economies, C, 0) == 10
    ensures S.MedianProfit(s.work.economies, Genesis(), 0) == 0
  {
    hide Median, ProfitOf, Revealing;
    RivalProfits(s);
    S.ProfitsWindow(s.work.economies, C, 0);
    S.ProfitsWindow(s.work.economies, Genesis(), 0);
    SingleMedian(10);
    SingleMedian(0);
  }

  // The first rival is in place of the first version, the second still waits.
  ghost predicate Revealed(s: State) {
    && s.now == EPOCH_LENGTH + COMMIT_PHASE_BLOCKS
    && s.work.economies == map[Period(C, 0) := Economy(10, 0), Period(D, 0) := Economy(20, 0)]
    && C in s.registry.versions && ActiveIn(s.registry, HOME) == Some(C)
    && D in s.registry.versions && s.registry.versions[D] == Winner(EPOCH_LENGTH)
  }

  lemma Reveals(s: State)
    requires Revealing(s)
    ensures var o := Step(s, Campaign()[REVEAL]); o.Done? && Revealed(o.state)
  {
    hide S.MedianProfit, Bump;
    RivalsDiffer();
    RivalMedians(s);
  }

  ghost predicate Challenged(s: State) {
    && s.now == EPOCH_LENGTH + COMMIT_PHASE_BLOCKS
    && D in s.registry.versions && s.registry.versions[D] == Winner(EPOCH_LENGTH).(status := Active)
  }

  lemma Replaces(s: State)
    requires Revealed(s)
    ensures var o := Step(s, Campaign()[CHALLENGE]); o.Done? && Challenged(o.state)
  {
    hide S.MedianProfit, Bump;
    RivalsDiffer();
  }

  lemma Ages(s: State)
    requires Challenged(s)
    ensures Step(Next(s, Campaign()[17]), Campaign()[EJECTION]).Done?
  {
    hide S.FirstHeir, S.Bequeath, S.Retire, S.SlashIfUnprofitable;
  }

  // In a run from a fresh arena a reveal, a public challenge and an ejection
  // succeed, the reveal with a single profitable epoch behind it.
  lemma CampaignSucceeds()
    ensures Step(At(0, Campaign(), REVEAL), Campaign()[REVEAL]).Done?
    ensures forall e :: ProfitOf(At(0, Campaign(), REVEAL).work.economies, C, e) > 0 <==> e == 0
    ensures Step(At(0, Campaign(), CHALLENGE), Campaign()[CHALLENGE]).Done?
    ensures Step(At(0, Campaign(), EJECTION), Campaign()[EJECTION]).Done?
  {
    hide Step, At, Revealing, Revealed, Challenged, ProfitOf;
    var run := Campaign();
    ReadyToReveal();
    OneProfit(At(0, run, REVEAL));
    Reveals(At(0, run, REVEAL));
    AtNext(0, run, REVEAL);
    Replaces(At(0, run, CHALLENGE));
    AtNext(0, run, CHALLENGE);
    Ages(At(0, run, 17));
    AtNext(0, run, 17);
  }

  lemma OneProfit(s: State)
    requires Revealing(s)
    ensures forall e :: ProfitOf(s.work.economies, C, e) > 0 <==> e == 0
  {
    hide Roster;
    RivalsDiffer();
  }

  // ---- a bond is destroyed ----

  const WHOLE := Task("whole", VERSION_BOND)
  const WHOLE_ID := RankedJobId(WHOLE, 0)

  // The one version of an arena wins a job whose reward is its own bond, and
  // asks for the bond in the next epoch.
  function Ruin(): seq<Action> {
    [ OnMoney(Mint("o", VERSION_BOND)),
      FOUNDING,
      OnRanked(AuthorizeJob(WHOLE, [])),
      OnRanked(CreateRankedJob(WHOLE)),
      OnRanked(SubmitRanked("o", WHOLE_ID, Genesis(), "result", "p", true)),
      OnMoney(AdvanceToNextEpoch),
      OnRegistry(ReclaimBond("o", Genesis()))
    ]
  }

  const RECLAIM := 6

  ghost predicate HasBond(s: State) {
    && Get(s.bonds.amount, Genesis()) == VERSION_BOND
    && Genesis() in s.bonds.epoch && s.bonds.epoch[Genesis()] == 0
  }

  ghost predicate Sole(s: State, w: Work, commons: int) {
    && s.now == 0 && s.work == w && s.bank.vaults == map[] && s.bank.commonsAvailable == commons
    && s.registry == Registry(map[Genesis() := Entry(Active)], map[HOME := Some(Genesis())], map[HOME := [Genesis()]])
    && HasBond(s)
  }

  const WHOLE_SCHEDULED := Work({WHOLE}, {}, map[], 0, map[], {})
  const WHOLE_POSTED := Work({WHOLE}, {WHOLE}, map[WHOLE_ID := RankedJob(WHOLE, Open)], 1, map[], {})

  lemma FoundsSole(s: State)
    requires s == Next(Init(0), Ruin()[0])
    ensures Sole(Next(s, Ruin()[1]), NO_WORK, VERSION_BOND)
  {
    hide Step, S.PostBond, Bump;
    assert s.registry == Registry(map[], map[], map[]) && s.work == NO_WORK && s.bank.vaults == map[]
        && Get(s.bank.wallets, "o") == VERSION_BOND && s.bank.commonsAvailable == 0 && s.now == 0 by { Mints(s); }
    Founds(s);
    BondPosted(s);
    assert Ruin()[1] == FOUNDING;
    assert [] + [Genesis()] == [Genesis()];
  }

  lemma Mints(s: State)
    requires s == Next(Init(0), Ruin()[0])
    ensures s.registry == Registry(map[], map[], map[]) && s.work == NO_WORK && s.bank.vaults == map[] && s.now == 0
    ensures Get(s.bank.wallets, "o") == VERSION_BOND && s.bank.commonsAvailable == 0
  {
  }

  lemma BondPosted(s: State)
    requires s.now == 0
    ensures var t := S.PostBond(s, "o", Genesis());
            HasBond(t) && t == s.(bank := t.bank, bonds := t.bonds) && t.bank.vaults == s.bank.vaults
            && t.bank.commonsAvailable == s.bank.commonsAvailable + VERSION_BOND
  {
  }

  lemma SchedulesWhole(s: State)
    requires Sole(s, NO_WORK, VERSION_BOND)
    ensures Sole(Next(s, Ruin()[2]), WHOLE_SCHEDULED, VERSION_BOND)
  {
    hide Step;
    Schedules(s, "whole", VERSION_BOND);
    assert {} + {WHOLE} == {WHOLE};
  }

  lemma PostsWhole(s: State)
    requires Sole(s, WHOLE_SCHEDULED, VERSION_BOND)
    ensures Sole(Next(s, Ruin()[3]), WHOLE_POSTED, 0)
  {
    hide Step;
    Posts(s, "whole", VERSION_BOND);
    assert {} + {WHOLE} == {WHOLE};
  }

  ghost predicate Paid(s: State) {
    && s.bank.commonsAvailable == 0 && HasBond(s)
    && Genesis() in s.registry.versions
    && s.work.economies == map[Period(Genesis(), 0) := Economy(VERSION_BOND, 0)]
  }

  lemma WinsWhole(s: State)
    requires Sole(s, WHOLE_POSTED, 0)
    ensures var t := Next(s, Ruin()[4]); Paid(t) && t.now == 0
  {
    hide Step;
    Wins(s, WHOLE_ID, Genesis(), "p");
  }

  lemma Closes(s: State)
    requires Paid(s) && s.now == 0
    ensures var t := Next(s, Ruin()[5]); Paid(t) && EpochAt(t.now) == 1
  {
  }

  lemma ReclaimsNothing(s: State)
    requires Paid(s) && EpochAt(s.now) == 1
    ensures Ruined(s, Ruin()[RECLAIM])
  {
    ReclaimExactly(s, "o", Genesis());
  }

  ghost predicate Ruined(s: State, a: Action) {
    && a == OnRegistry(ReclaimBond("o", Genesis())) && Eligible(s, "o", Genesis())
    && Get(s.bonds.amount, Genesis()) == VERSION_BOND
    && Step(s, a).Raised? && Step(s, a).error == CommonsInsufficient
    && Step(s, a).state.bank == s.bank
    && Get(Step(s, a).state.bonds.amount, Genesis()) == 0
  }

  // In a run from a fresh arena an eligible reclaim raises, pays nothing and
  // takes the bond.
  lemma BondDestroyed()
    ensures Ruined(At(0, Ruin(), RECLAIM), Ruin()[RECLAIM])
  {
    hide Next, At, Sole, Paid, Ruined, EpochAt;
    var run := Ruin();
    FirstState(run);
    AtNext(0, run, 0);
    FoundsSole(At(0, run, 1));
    AtNext(0, run, 1);
    SchedulesWhole(At(0, run, 2));
    AtNext(0, run, 2);
    PostsWhole(At(0, run, 3));
    AtNext(0, run, 3);
    WinsWhole(At(0, run, 4));
    AtNext(0, run, 4);
    Closes(At(0, run, 5));
    AtNext(0, run, 5);
    ReclaimsNothing(At(0, run, RECLAIM));
  }
}
