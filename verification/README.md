# Verification of the Earn-or-Halt protocol models

This project models four parts of the repository and proves what they promise.

- **The arena** (`arena-v0.2.0/model/arena.py`): lineages of agent versions compete
  in epochs. Versions hold money in vaults, win ranked jobs paid from a commons,
  serve market jobs paid from escrow, challenge each other for the active place of
  their lineage, and are ejected when stale. `ArenaTypes` holds the state,
  `ArenaSpec` one step function per entry point, and `ArenaMachine` a class whose
  methods update the state in place and are proved to do what the step functions
  say, on returning and on raising; the class keeps the run of its calls as a ghost
  field, and its fields are always the state that run leads to. `Runs` lifts steps
  to runs, with a history of what the state forgets; `Conservation`, `Provenance`,
  `RankedWork`, `Lineages`, `Chronology` are the invariants, `Safety` puts them
  together, and `Guarantees`, `Raises`, `Challenges`, `Convergence`, `Routing`,
  `Medians`, `ContractMedian` and `Bonds` state the results. `Demands`, `MoneyFlow`
  and `Records` say of every call in every reachable state when it raises and with
  which error, which account it debits and which it credits, and which entries it
  writes; they use the values and not the functions of `ArenaSpec`. `Witnesses` and
  `Downturn` have three runs from a fresh arena: in one a reveal, a public challenge
  and an ejection succeed, in one a reclaim destroys a bond, in one a version that
  lost money wins a reveal.
- **The hash** (`arena-v0.2.0/scripts/keccak256.py`): `Keccak` has the loops over 25
  lanes, `Fips202` the standard bit by bit, `Lanes`, `Rotations`, `KeccakConstants`
  and `KeccakBits` connect the two, `KeccakPadding` treats the padding.
- **The job tree** (`arena-v0.2.0/scripts/make_job_tree.py` and
  `arena-v0.2.0/contracts/verifiers/MerkleJobAuthorizer.sol`): `MerkleTree` is the
  builder, `JobAuthorizer` the independent on-chain checker, `JobSchedule` proves
  that they agree, `Words` has big-endian words and their order. The hash is a
  parameter throughout, so the results hold of any hash; the source's is
  `KeccakPadding.Digest`. `SharedHash` gives builder and checker a hash each, the
  source's and the standard's.
- **The agent** (`earn_or_halt`): `EarnOrHalt` is the specification of wallet,
  ledger, verifier, policy and economic cycle, `AgentMachine` the classes,
  `AgentRecords` says of every cycle what it demands, pays and records,
  `WalletAgreement` and `AgentRuns` the results, `Ranking` the global ranking.

Clocks, signatures, proofs and attestations are inputs of the calls: a signature or
an attestation is a boolean, a provider may return any bill it likes, and every
reading of the clock in an economic cycle is separate.

## Where code and documents differ

The model follows the code.

- Property I11 of `arena-v0.2.0/docs/FORMAL_PROPERTIES.md` says that a bond is
  positive exactly while its version is registered and neither refunded nor slashed.
  For registered versions that holds, with a reclaim counted when it passes every
  guard up to the payment (`Bonds.BondExactly`). It fails for versions that are not
  registered: a wrong signer policy raises after the bond was taken, and
  `Bonds.OrphanBondByGenesis` and `Bonds.OrphanBondByRegistration` say exactly when.
- Its second clause asks a reclaim for profit in the epoch after the bond's. The code
  reads the last closed epoch, whichever that is (`Bonds.ReclaimDecidedBy`): in the
  epoch after the bond's it is the bond's own epoch, and a reclaim there succeeds
  with no profit in the epoch the clause names (`Downturn.ReclaimsEarly`).
- The same property refunds a reclaimed bond. The code clears the bond before it
  looks at the commons, so the reclaim pays if and only if the commons hold the bond
  (`Bonds.ReclaimExactly`); otherwise the money is lost for good
  (`Bonds.LostForGood`, and `Witnesses.BondDestroyed` for a run in which it is).
  The bonds are covered as long as no ranked reward was taken from the commons
  (`Bonds.BondsCovered`).
- Property I5 wants a challenger in profit, and in more profit than the active
  version, in the epoch compared. Public challenges keep to it
  (`Convergence.PublicIsStrict`). A reveal compares medians and keeps to it if and
  only if the public challenge would have succeeded in its place
  (`Convergence.RevealIsStrict`); in `Downturn.LoserWinsReveal` a reveal succeeds for
  a version that lost money in that epoch.
- Property I8 sends a stale vault to the commons; the code gives half to an heir
  (property I18), as `Guarantees.EjectionSplits` states.
- Property I17 says that one outlier epoch cannot raise a version. That holds on a
  full window. Compared at epoch 0 the median is the profit itself, and at epoch 1
  it is positive if and only if the two profits sum to 2 or more
  (`Challenges.MedianPositiveExactly`), so one epoch can be enough; in
  `Witnesses.CampaignSucceeds` a version wins a reveal with one profitable epoch.
- The contract takes the upper of two epochs where the model takes the floor of
  their mean (`ContractMedian.MediansAgree`).
- A message whose length is 135 modulo 136 is padded to one block more than
  pad10*1 of FIPS 202 prescribes (`KeccakPadding.PaddingIsStandard`).
- `earn_or_halt/policy.py` documents the second halt rule with the cost of the next
  operation; the code compares the balance with the loss (`WalletAgreement.PolicyExact`).
- An economic cycle whose payment is rejected returns without asking the policy, so
  the loss can pass half of the deposits; `WalletAgreement.LossPassesHalf` says on
  which inputs. With the runtime's own quote of 300, a payer the verifier does not
  know takes the loss past half at the 17th cycle, and the agent halts only at the
  34th (`AgentRuns.LossCanPassHalf`).

## Model

| member | source | states |
|---|---|---|
| Guarantees.MoneyIsConserved | arena-v0.2.0/model/arena.py:951-981 | After every call of every run, returning or raising: all money sums to what was minted, no balance is negative, and the two reserves equal the rewards of the open ranked jobs and of the open or submitted market jobs |
| Guarantees.VaultsHaveSources | arena-v0.2.0/model/arena.py:285-290 | In every reachable state the vaults sum to donations plus market revenue plus ranked revenue, less verified cost, operating expenses, heartbeat burns and what ejections sent to the commons; supersession and the lineage share cancel out |
| Guarantees.RankIsSettledWork | arena-v0.2.0/model/arena.py:614-633 | Revenue and cost of a version in an epoch are exactly the rewards and verified costs of the ranked jobs it settled in that epoch |
| Guarantees.OnlyWinsMoveProfit | arena-v0.2.0/model/arena.py:583-633 | A profit changes only when that version wins ranked work in the current epoch, by reward minus verified cost; no donation, market job, expense, heartbeat, challenge or ejection moves any profit |
| Guarantees.NothingIsUsedTwice | arena-v0.2.0/model/arena.py:564-581 | Ranked jobs carry pairwise distinct authorizations, which are exactly the used ones; settlements and expenses together use pairwise distinct proofs, which are exactly the used ones |
| Guarantees.OneActivePerLineage | arena-v0.2.0/model/arena.py:977-981 | A version is active if and only if its lineage points to it, and any vault with money belongs to a registered live version |
| Guarantees.WhatIsFinal | arena-v0.2.0/model/arena.py:812-819 | Superseded and stale versions, economies of closed epochs and closed ranked jobs never change again |
| Guarantees.SuccessorsLeadToBeneficiary | arena-v0.2.0/model/arena.py:1051-1062 | Successors lead from a superseded version, inside its lineage, to an active or stale one; when active, it is the live beneficiary |
| Guarantees.NoSuccessorCycle | arena-v0.2.0/model/arena.py:812-819 | No chain of successors returns to where it began |
| Guarantees.SpendingIsBounded | arena-v0.2.0/model/arena.py:317-334 | Each day's spending is within the cap, the total is the sum of the days, and it is at most the cap times the calendar days since registration |
| Guarantees.RaisesLeaveFootprint | arena-v0.2.0/model/arena.py:356-366 | In every reachable state a call raises and changes the state if and only if it is a registration with only its signer policy at fault, an eligible reclaim the commons cannot pay, or a reveal with a good commit that loses the challenge; the change is exactly the bond posted for the call's own unregistered version, that version's bond cleared, or that commit consumed, the error is the one of that fault, and the two internal failures never happen |
| Guarantees.EjectionSplits | arena-v0.2.0/model/arena.py:871-914 | In every reachable state a successful ejection gives half of the stale vault, rounded down, to the first member in registration order that incubates and has ever shown profit, and the rest to the commons, all of it to the commons without such a member; it moves no other vault, and always forfeits the bond: both guards of the slashing rule are idle |
| Guarantees.WinnerIsPaid | arena-v0.2.0/model/arena.py:608-633 | In every reachable state a settlement pays the verified cost to the recipient the job names and moves no other wallet; the winner's vault gains the reward less the cost and no other vault moves |
| Guarantees.LargeExpensesAreSigned | arena-v0.2.0/model/arena.py:292-334 | In every reachable state an expense is paid if and only if it is otherwise payable and is at most a tenth of the daily cap or has at least as many distinct signatures as the threshold, all by signers of the version |
| Guarantees.AutoAcceptPaysLive | arena-v0.2.0/model/arena.py:698-709 | A helper on one call in any state: automatic acceptance pays a live beneficiary, its no-beneficiary branches are unreachable |
| Guarantees.ChallengesConverge | arena-v0.2.0/model/arena.py:775-819 | Successful public challenges at one moment are finitely many and, in any order, leave active the best profit among the first incumbent and all contenders |
| Guarantees.BestCanBeActive | arena-v0.2.0/model/arena.py:775-819 | In every reachable state some public challenges, no more than there are incubating versions, leave none that would succeed and the best profit among the contenders active |
| Safety.ReachableSound | arena-v0.2.0/model/arena.py:961-981 | Every reachable state satisfies all invariants together |
| Safety.Keeps | arena-v0.2.0/model/arena.py:961-981 | Every call, returning or raising, keeps all invariants |
| Demands.DemandsExact | arena-v0.2.0/model/arena.py:253-947 | In every reachable state every call returns if and only if all its demands are met, and otherwise raises the error of the first that is not |
| Demands.ChallengesExactly | arena-v0.2.0/model/arena.py:775-811 | Of the checks on a challenge, those that the active version is another one, registered and of the lineage never fail |
| Demands.ReclaimExactlyWhen | arena-v0.2.0/model/arena.py:443-461 | The epoch a version was registered in locks its bond, and the profit of the last closed epoch decides a reclaim |
| Demands.Utf8Octets | arena-v0.2.0/model/arena.py:1028-1029 | The length limit counts the octets of the UTF-8 form |
| MoneyFlow.EveryMoveIsNamed | arena-v0.2.0/model/arena.py:253-947 | In every reachable state every call moves exactly the amounts named between the wallets, vaults, commons, reserve, escrow and surplus named, and every other place keeps what it holds; a raising call moves at most a bond |
| MoneyFlow.EveryCountIsNamed | arena-v0.2.0/model/arena.py:285-334 | Gifts, sales, expenses, daily expenses and burns are counted for the version and day that received, sold, spent or burned, and for no other |
| MoneyFlow.EjectionFlows | arena-v0.2.0/model/arena.py:886-909 | The half of a stale vault goes to the first in line |
| MoneyFlow.SettleFlows | arena-v0.2.0/model/arena.py:622-628 | The verified cost leaves the winner's vault for its recipient, the reward leaves the reserve for the winner's vault |
| Records.EveryVersionIsWritten | arena-v0.2.0/model/arena.py:338-934 | In every reachable state every call writes exactly the version entries, member lists and pointers named, and leaves all others |
| Records.EveryJobIsWritten | arena-v0.2.0/model/arena.py:507-645 | The same for ranked jobs, economies, authorizations and proofs |
| Records.EveryOfferIsWritten | arena-v0.2.0/model/arena.py:647-739 | The same for market jobs, with performer and result |
| Records.EveryBondIsWritten | arena-v0.2.0/model/arena.py:356-475 | The same for bonds and their epochs, raising calls included |
| Records.EveryCommitIsWritten | arena-v0.2.0/model/arena.py:821-860 | The same for commits and reveals and the clock, raising calls included |
| Conservation.SettleConserves | arena-v0.2.0/model/arena.py:608-633 | Settling a ranked job keeps the money total and both reserves exact |
| Conservation.SupersedeConserves | arena-v0.2.0/model/arena.py:812-819 | Supersession moves the vault without creating or losing money |
| Conservation.AcceptMarketConserves | arena-v0.2.0/model/arena.py:713-727 | Accepting a market result moves its reward out of escrow exactly once |
| Conservation.SubmitMarketConserves | arena-v0.2.0/model/arena.py:679-711 | Submitting, with or without automatic acceptance, keeps escrow equal to the rewards still held |
| Conservation.RegistryConserves | arena-v0.2.0/model/arena.py:338-503 | Registration, bonds and heartbeats keep the money total |
| Conservation.Conserves | arena-v0.2.0/model/arena.py:951-981 | Every call keeps the money total and the exact reserves |
| Provenance.SourcedKept | arena-v0.2.0/model/arena.py:700-727 | Every call keeps the balance of vault sources |
| Provenance.SpendingBound | arena-v0.2.0/model/arena.py:317-334 | Total spending is bounded by the cap times the days lived |
| RankedWork.EarnedKept | arena-v0.2.0/model/arena.py:608-633 | Every permitted change of the ranked work keeps economies equal to the sums over settled jobs |
| RankedWork.OneJobKept | arena-v0.2.0/model/arena.py:564-581 | No change gives two jobs one authorization |
| RankedWork.OneUseKept | arena-v0.2.0/model/arena.py:608-622 | No change uses a proof twice |
| Lineages.CallWrites | arena-v0.2.0/model/arena.py:338-440 | Every call writes the registry in one of six ways, under the guards that way needs |
| Lineages.PointedKept | arena-v0.2.0/model/arena.py:812-819 | Every write keeps the pointer and the active status in step |
| Lineages.SuccessionKept | arena-v0.2.0/model/arena.py:812-819 | Every write keeps successors strictly later in the order of activation and inside the lineage |
| Lineages.InjectiveKept | arena-v0.2.0/model/arena.py:812-819 | No version becomes the successor of two versions |
| Lineages.HoldersKept | arena-v0.2.0/model/arena.py:886-914 | Every call leaves money in the vaults of live versions only |
| Lineages.ChainEndsLiveOrStale | arena-v0.2.0/model/arena.py:1051-1062 | Following successors ends at an active or stale version of the lineage |
| Lineages.BeneficiaryIsChainEnd | arena-v0.2.0/model/arena.py:1051-1062 | The live beneficiary of a superseded version is where its successors lead |
| Lineages.SuccessorsAcyclic | arena-v0.2.0/model/arena.py:812-819 | Every chain of successors rises strictly in the order of activation |
| Chronology.DatedKept | arena-v0.2.0/model/arena.py:629-633 | A positive profit in an epoch always dates the version no earlier than the start of that epoch |
| Chronology.CallLater | arena-v0.2.0/model/arena.py:253-261 | Every call keeps what is final and moves time only forward |
| Challenges.PromotionGrace | arena-v0.2.0/model/arena.py:916-934 | The winner of a public challenge or of a vacancy cannot be ejected as stale for the staleness span less two epochs (16 days) |
| Challenges.RevealGrace | arena-v0.2.0/model/arena.py:842-860 | The winner of a revealed challenge cannot be ejected as stale for the staleness span less three epochs (9 days) |
| Challenges.RevealBound | arena-v0.2.0/model/arena.py:821-860 | A successful reveal follows a commit of the same triple made at least the commit phase earlier in the same epoch, and compares the medians that held at the commit |
| Challenges.RevealOnce | arena-v0.2.0/model/arena.py:859-860 | No commit is revealed with success twice |
| Challenges.CommitOrigin | arena-v0.2.0/model/arena.py:821-840 | Every stored commit was made by one call, at the time stored with it |
| Challenges.FallbackIsIdle | arena-v0.2.0/model/arena.py:896-903 | The current-epoch fallback never changes the heir an ejection finds |
| Challenges.MedianTakesTwoEpochs | arena-v0.2.0/model/arena.py:752-771 | On a full window a positive median takes two profitable epochs |
| Challenges.MedianPositiveExactly | arena-v0.2.0/model/arena.py:752-771 | The median is positive at epoch 0 if and only if the profit is, at epoch 1 if and only if the two profits sum to 2 or more, and from epoch 2 on if and only if two of the three epochs are profitable |
| Convergence.ChallengeSucceeds | arena-v0.2.0/model/arena.py:775-819 | A public challenge succeeds if and only if the challenger contends and has more profit than the active version |
| Convergence.ChallengeInherits | arena-v0.2.0/model/arena.py:812-819 | The challenger's vault gains exactly the incumbent's, which is left empty |
| Convergence.PublicIsStrict | arena-v0.2.0/model/arena.py:862-869 | The winner of a public challenge is in profit in the epoch compared and in more profit than the incumbent |
| Convergence.RevealIsStrict | arena-v0.2.0/model/arena.py:842-860 | The winner of a reveal is so if and only if the public challenge would have succeeded in its place; compared at epoch 0 it always is |
| Convergence.SettledExists | arena-v0.2.0/model/arena.py:775-819 | From every ordered state some challenges within a lineage, no more than it has incubating versions, leave none that would succeed |
| Convergence.ContestIsFinite | arena-v0.2.0/model/arena.py:775-819 | Successes in a lineage are as many as the incubating versions used up |
| Convergence.ChallengeProgress | arena-v0.2.0/model/arena.py:775-819 | The active profit rises strictly at every success |
| Convergence.ContestConverges | arena-v0.2.0/model/arena.py:775-819 | When no challenge is left that would succeed, the active profit is the maximum over the first incumbent and the contenders |
| Bonds.OrphanBondByGenesis | arena-v0.2.0/model/arena.py:338-370 | A new lineage leaves a bond without a version if and only if only its signer policy is at fault and the bond can be paid |
| Bonds.OrphanBondByRegistration | arena-v0.2.0/model/arena.py:388-425 | The same for a new version of a lineage |
| Bonds.OrphanBondExists | arena-v0.2.0/model/arena.py:356-366 | A concrete run that leaves such a bond |
| Bonds.BondExactly | arena-v0.2.0/model/arena.py:443-475 | In every reachable state a registered version has its whole bond if no eligible reclaim and no ejection of it was made so far, and none otherwise |
| Bonds.StaleIsUnprofitable | arena-v0.2.0/model/arena.py:464-475 | A version that can be ejected was bonded two epochs ago or more and was not profitable in the last closed epoch |
| Bonds.SlashExactly | arena-v0.2.0/model/arena.py:464-475 | In any state a bond two epochs old or older is forfeited if and only if its version had no revenue or no profit in the last closed epoch, and no other bond moves |
| Bonds.ReclaimExactly | arena-v0.2.0/model/arena.py:443-461 | An eligible reclaim always takes the bond, pays it if and only if the commons hold as much, and otherwise raises with no money moved |
| Bonds.ProfitHasRevenue | arena-v0.2.0/model/arena.py:451-454 | With scheduled jobs only, the test for revenue beside the test for profit is idle |
| Bonds.ReclaimDecidedBy | arena-v0.2.0/model/arena.py:443-454 | In every reachable state a reclaim passes its guards if and only if its operator asks, the bond is there, its epoch is closed, and the last closed epoch was profitable |
| Bonds.LostForGood | arena-v0.2.0/model/arena.py:455-458 | After an eligible reclaim, paid or not, the bond is 0 for the rest of the run and every further reclaim raises without an effect |
| Bonds.CoverGrows | arena-v0.2.0/model/arena.py:455-461 | No call lowers what the commons, the open ranked rewards and the ranked rewards paid hold beyond all bonds |
| Bonds.BondsCovered | arena-v0.2.0/model/arena.py:338-475 | In every reachable state the commons, the open ranked rewards and the ranked rewards paid out together cover the sum of all bonds |
| Witnesses.BondDestroyed | arena-v0.2.0/model/arena.py:443-461 | A run from a fresh arena in which an eligible reclaim raises, pays nothing and clears the bond |
| Witnesses.CampaignSucceeds | arena-v0.2.0/model/arena.py:842-914 | A run from a fresh arena in which a reveal with one profitable epoch, a public challenge and an ejection succeed |
| Downturn.ReclaimsEarly | arena-v0.2.0/model/arena.py:443-461 | In a run from a fresh arena a reclaim in the epoch after the bond's succeeds on the profit of the bond's epoch alone |
| Downturn.LoserWinsReveal | arena-v0.2.0/model/arena.py:842-860 | A run from a fresh arena in which a reveal succeeds for a version that lost money in the epoch compared |
| Medians.MedianOrderIndependent | arena-v0.2.0/model/arena.py:752-771 | The median does not depend on the order of the epochs |
| Medians.MedianMonotone | arena-v0.2.0/model/arena.py:752-771 | More profit in any epoch never lowers the median |
| Medians.MedianBalanced | arena-v0.2.0/model/arena.py:752-771 | At least half of the profits reach the median and at least half do not exceed it |
| Medians.OutlierBounded | arena-v0.2.0/model/arena.py:752-771 | One epoch cannot lift a full window above the better of the other two |
| Medians.SortSorts | arena-v0.2.0/model/arena.py:767 | The sort gives the ascending arrangement of its input |
| Medians.UpperMedianAgrees | arena-v0.2.0/contracts/EohArena.sol:1070-1090 | The contract's middle element is the median on odd windows and never below it |
| ContractMedian.InsertionSort | arena-v0.2.0/contracts/EohArena.sol:1079-1088 | The in-place insertion sort sorts the filled part of the window |
| ContractMedian.MedianProfit | arena-v0.2.0/contracts/EohArena.sol:1070-1090 | The contract's loops return the middle element of the sorted profit window |
| ContractMedian.MediansAgree | arena-v0.2.0/contracts/EohArena.sol:1070-1090 | Contract and model agree if and only if the window is not of two epochs or both are equal; otherwise the contract's value is higher |
| Routing.CandidatesExact | arena-v0.2.0/model/arena.py:936-945 | In every reachable state the candidates are exactly the live versions of the lineage in profit, once each |
| Routing.TopVersionsIsTopK | arena-v0.2.0/model/arena.py:936-947 | The table holds as many versions as asked for or available, all live and in profit, each with more profit than the next or as much and the greater id, and above every such version left out |
| ArenaMachine.Arena.constructor | arena-v0.2.0/model/arena.py:171-220 | A fresh arena is the empty state |
| ArenaMachine.ArenaIsSound | arena-v0.2.0/model/arena.py:951-981 | Whatever was called on an arena object, its fields are the state its run of calls leads to and satisfy every invariant |
| ArenaMachine.Arena.DebitWallet | arena-v0.2.0/model/arena.py:1070-1074 | Debits or raises, by the amount and the balance |
| ArenaMachine.Arena.LiveBeneficiary | arena-v0.2.0/model/arena.py:1051-1062 | Finds the live beneficiary or none |
| ArenaMachine.Arena.FundingBeneficiary | arena-v0.2.0/model/arena.py:1064-1068 | Finds it or raises |
| ArenaMachine.Arena.Advance | arena-v0.2.0/model/arena.py:253-256 | Time moves forward by the seconds, or the call raises |
| ArenaMachine.Arena.AdvanceToNextEpoch | arena-v0.2.0/model/arena.py:258-259 | Time moves to the start of the next epoch |
| ArenaMachine.Arena.Mint | arena-v0.2.0/model/arena.py:263-266 | Full new state, returning or raising |
| ArenaMachine.Arena.FundCommons | arena-v0.2.0/model/arena.py:268-270 | Full new state, returning or raising |
| ArenaMachine.Arena.DirectTransferToArena | arena-v0.2.0/model/arena.py:272-275 | Full new state, returning or raising |
| ArenaMachine.Arena.AbsorbSurplus | arena-v0.2.0/model/arena.py:277-283 | Full new state and the amount absorbed |
| ArenaMachine.Arena.Donate | arena-v0.2.0/model/arena.py:285-290 | Full new state; the live beneficiary is credited |
| ArenaMachine.Arena.SettleOperatingExpense | arena-v0.2.0/model/arena.py:292-334 | Full new state, every guard in order, the signer loop included |
| ArenaMachine.Arena.PostBond | arena-v0.2.0/model/arena.py:356-361 | The bond is taken and recorded, or the debit's error |
| ArenaMachine.Arena.CreateLineage | arena-v0.2.0/model/arena.py:338-386 | Full new state, the bond kept when the signer policy raises |
| ArenaMachine.Arena.RegisterVersion | arena-v0.2.0/model/arena.py:388-440 | Full new state, the bond kept when the signer policy raises |
| ArenaMachine.Arena.ReclaimBond | arena-v0.2.0/model/arena.py:443-461 | Full new state, the bond cleared before the last check |
| ArenaMachine.Arena.SlashBondIfUnprofitable | arena-v0.2.0/model/arena.py:464-475 | The bond is cleared exactly under the slashing rule |
| ArenaMachine.Arena.Heartbeat | arena-v0.2.0/model/arena.py:477-503 | Full new state, returning or raising |
| ArenaMachine.Arena.AuthorizeRankedJob | arena-v0.2.0/model/arena.py:507-562 | Full new state, returning or raising, and the authorization scheduled |
| ArenaMachine.Arena.CreateRankedJob | arena-v0.2.0/model/arena.py:564-581 | Full new state, returning or raising |
| ArenaMachine.Arena.SubmitRankedResult | arena-v0.2.0/model/arena.py:583-633 | Full new state, every guard in order |
| ArenaMachine.Arena.SettleRanked | arena-v0.2.0/model/arena.py:611-633 | The settlement's writes, in the source's order |
| ArenaMachine.Arena.ExpireRankedJob | arena-v0.2.0/model/arena.py:635-643 | Full new state, returning or raising |
| ArenaMachine.Arena.OpenMarketJob | arena-v0.2.0/model/arena.py:647-677 | Full new state, returning or raising |
| ArenaMachine.Arena.SubmitMarketResult | arena-v0.2.0/model/arena.py:679-711 | Full new state, automatic acceptance included |
| ArenaMachine.Arena.AcceptMarketResult | arena-v0.2.0/model/arena.py:713-727 | Full new state, returning or raising, and the beneficiary found |
| ArenaMachine.Arena.RefundMarketJob | arena-v0.2.0/model/arena.py:729-739 | Full new state, returning or raising |
| ArenaMachine.Arena.MedianProfit | arena-v0.2.0/model/arena.py:752-771 | The loop, sort and middle give the specified median |
| ArenaMachine.Arena.ExecuteSupersede | arena-v0.2.0/model/arena.py:775-819 | Full new state and the amount transferred |
| ArenaMachine.Arena.CommitSupersede | arena-v0.2.0/model/arena.py:821-840 | Full new state, returning or raising |
| ArenaMachine.Arena.RevealSupersede | arena-v0.2.0/model/arena.py:842-860 | Full new state, the commit consumed even when the execution raises |
| ArenaMachine.Arena.Supersede | arena-v0.2.0/model/arena.py:862-869 | Full new state, returning or raising |
| ArenaMachine.Arena.FindHeir | arena-v0.2.0/model/arena.py:892-903 | The search loop finds the first heir in listing order |
| ArenaMachine.Arena.EjectStale | arena-v0.2.0/model/arena.py:871-914 | Full new state and the total released |
| ArenaMachine.Arena.ClaimVacancy | arena-v0.2.0/model/arena.py:916-934 | Full new state, returning or raising |
| ArenaMachine.Arena.RoutableCandidates | arena-v0.2.0/model/arena.py:939-945 | The filter loop gives the candidates in listing order |
| ArenaMachine.Arena.TopVersions | arena-v0.2.0/model/arena.py:936-947 | The table as specified |
| ArenaSpec.FirstHeir | arena-v0.2.0/model/arena.py:892-903 | The heir qualifies, is not the stale version, and no candidate before it does so; none does when there is no heir |
| Keccak.ThetaInPlace | arena-v0.2.0/scripts/keccak256.py:54-59 | The nested loops compute theta on the 25 lanes |
| Keccak.Scatter | arena-v0.2.0/scripts/keccak256.py:61-65 | The scatter computes rho and pi, every lane written once |
| Keccak.ChiInPlace | arena-v0.2.0/scripts/keccak256.py:67-71 | The nested loops compute chi |
| Keccak.PermuteInPlace | arena-v0.2.0/scripts/keccak256.py:52-74 | 24 rounds in place compute the lane-wise permutation |
| Keccak.PadMessage | arena-v0.2.0/scripts/keccak256.py:79-83 | The loop appends the specified padding |
| Keccak.AbsorbAll | arena-v0.2.0/scripts/keccak256.py:85-90 | The loops absorb every block |
| Keccak.SqueezeOut | arena-v0.2.0/scripts/keccak256.py:92-99 | The early return and the loop give the first 32 bytes squeezed |
| Keccak.Hash | arena-v0.2.0/scripts/keccak256.py:77-99 | The whole function computes the lane-wise hash |
| Rotations.BitRol | arena-v0.2.0/scripts/keccak256.py:46-49 | A rotation by any offset used moves bit z to bit z + s around the lane |
| KeccakConstants.Offsets | arena-v0.2.0/scripts/keccak256.py:11-17 | The rotation table is the walk of section 3.2.2 of FIPS 202 |
| KeccakConstants.ConstantBits | arena-v0.2.0/scripts/keccak256.py:18-43 | The round constants are the register of section 3.2.5 of FIPS 202 |
| KeccakBits.ThetaRefines | arena-v0.2.0/scripts/keccak256.py:54-59 | Lane-wise theta is theta of section 3.2.1, bit by bit |
| KeccakBits.RhoPiRefines | arena-v0.2.0/scripts/keccak256.py:61-65 | The lane moves are rho then pi of sections 3.2.2 and 3.2.3 |
| KeccakBits.ChiRefines | arena-v0.2.0/scripts/keccak256.py:67-71 | Lane-wise chi is chi of section 3.2.4 |
| KeccakBits.IotaRefines | arena-v0.2.0/scripts/keccak256.py:73-74 | The constant is iota of section 3.2.5 |
| KeccakBits.PermutationRefines | arena-v0.2.0/scripts/keccak256.py:52-74 | 24 lane-wise rounds are the permutation of section 3.3 |
| KeccakBits.AbsorbRefines | arena-v0.2.0/scripts/keccak256.py:85-90 | Absorbing lanes is absorbing bits, section 4, for any two permutations that do the same |
| KeccakBits.HashIsSponge | arena-v0.2.0/scripts/keccak256.py:77-99 | Given two permutations that do the same, hashing bytes is the sponge of section 4 over the bits of the padded message |
| Lanes.BitsOfInjective | arena-v0.2.0/scripts/keccak256.py:92-99 | Equal bits are equal bytes, so the results on bits determine the digest |
| KeccakPadding.PadLength | arena-v0.2.0/scripts/keccak256.py:79-83 | Padding adds 2 to 137 bytes, 137 exactly one byte short of a block |
| KeccakPadding.PaddingInjective | arena-v0.2.0/scripts/keccak256.py:79-83 | Different messages are padded to different strings |
| KeccakPadding.PaddingIsStandard | arena-v0.2.0/scripts/keccak256.py:79-83 | The padding is pad10*1 of section 5.1 if and only if the length is not 135 modulo 136 |
| KeccakPadding.Digest | arena-v0.2.0/scripts/keccak256.py:77-99 | For every message the digest is the standard's sponge over the padded message, and the standard's Keccak-256 unless the length is 135 modulo 136; the 15-, 64- and 160-byte inputs of the job tree are covered |
| KeccakPadding.HashWithStandard | arena-v0.2.0/scripts/keccak256.py:77-99 | The same for any lane-wise and bit-wise permutations that do the same |
| KeccakPadding.PaddingDiffers | arena-v0.2.0/scripts/keccak256.py:79-83 | A message of 135 bytes is padded to two blocks, one under the standard |
| MerkleTree.BuildTree | arena-v0.2.0/scripts/make_job_tree.py:65-77 | The loop builds all layers up to a single root, or fails on no jobs |
| MerkleTree.PairUp | arena-v0.2.0/scripts/make_job_tree.py:70-75 | The inner loop pairs a layer, the last odd node with itself |
| MerkleTree.ProofFor | arena-v0.2.0/scripts/make_job_tree.py:80-88 | The loop collects the siblings, or fails out of range; negative indices count from the end |
| MerkleTree.ElementExactly | arena-v0.2.0/scripts/make_job_tree.py:80-88 | An index names an element if and only if it is within one length of zero, and indices a length apart name the same |
| MerkleTree.LayerSizes | arena-v0.2.0/scripts/make_job_tree.py:65-77 | Exactly the last layer has one node |
| JobAuthorizer.AuthorizeJob | arena-v0.2.0/contracts/verifiers/MerkleJobAuthorizer.sol:34-51 | The loop folds the siblings and compares with the root |
| JobSchedule.EncodableWhen | arena-v0.2.0/scripts/make_job_tree.py:27-58 | A job is encodable if and only if its fields have the fixed widths, 128 and 64 bits for reward and deadline |
| JobSchedule.RefusedWhen | arena-v0.2.0/scripts/make_job_tree.py:27-58 | A refusal names the first field that does not fit |
| JobSchedule.DomainText | arena-v0.2.0/scripts/make_job_tree.py:47-58 | The domain is the text EOH_JOB_AUTH_V1 |
| JobSchedule.ParentsExact | arena-v0.2.0/scripts/make_job_tree.py:61-77 | A parent is the digest of its children with the smaller first, and the last child of an odd layer is its own sibling |
| JobSchedule.EncodingsAgree | arena-v0.2.0/contracts/verifiers/MerkleJobAuthorizer.sol:17-32 | Builder and contract encode a job to the same 160 bytes |
| JobSchedule.LeavesAreEncodings | arena-v0.2.0/scripts/make_job_tree.py:47-58 | The builder's leaf is the digest of the encoding the contract would hash |
| JobSchedule.EncodingInjective | arena-v0.2.0/contracts/verifiers/MerkleJobAuthorizer.sol:17-32 | Different jobs have different encodings |
| JobSchedule.PairsAgree | arena-v0.2.0/scripts/make_job_tree.py:61-62 | Byte-wise and numeric order agree, so both sides order a pair alike |
| JobSchedule.ProofReachesRoot | arena-v0.2.0/scripts/make_job_tree.py:65-88 | Folding a proof from any node of any layer gives the root |
| JobSchedule.HeightIsLog | arena-v0.2.0/scripts/make_job_tree.py:65-88 | The proof length is the logarithm of the leaf count, rounded up |
| JobSchedule.ScheduledIsAccepted | arena-v0.2.0/contracts/verifiers/MerkleJobAuthorizer.sol:34-51 | Completeness: every scheduled job is accepted with its proof, whatever the list size and index |
| JobSchedule.AcceptedIsScheduled | arena-v0.2.0/contracts/verifiers/MerkleJobAuthorizer.sol:40-50 | Soundness: an accepted job is scheduled, or the proof and the tree exhibit two different strings with one digest |
| SharedHash.TreesAlike | arena-v0.2.0/scripts/make_job_tree.py:65-88 | Two hashes that agree on all strings of 15, 64 and 160 bytes give the same layers and the same root |
| SharedHash.VerdictsAlike | arena-v0.2.0/contracts/verifiers/MerkleJobAuthorizer.sol:34-51 | They give the same verdict on every root, job and proof |
| SharedHash.AcceptedAcross | arena-v0.2.0/contracts/verifiers/MerkleJobAuthorizer.sol:34-51 | A job scheduled with one of them is accepted by a checker with the other |
| SharedHash.ScheduledAcross | arena-v0.2.0/contracts/verifiers/MerkleJobAuthorizer.sol:40-50 | A job accepted by a checker with one is scheduled by the builder with the other, or two strings have one digest |
| SharedHash.BuilderHash | arena-v0.2.0/scripts/keccak256.py:77-99 | The source's hash agrees in that way with every hash that is the standard's Keccak-256, although its padding differs on some lengths |
| SharedHash.StandardHash | arena-v0.2.0/contracts/verifiers/MerkleJobAuthorizer.sol:40-50 | There is such a hash of bytes, with the standard's bits |
| Words.LexIsNumeric | arena-v0.2.0/scripts/make_job_tree.py:61-62 | On equally long strings the byte order is the order of big-endian values |
| Words.ToBytesValue | arena-v0.2.0/scripts/make_job_tree.py:41-44 | A word encoding determines its value |
| AgentMachine.Wallet.constructor | earn_or_halt/wallet.py:29-37 | An empty wallet |
| AgentMachine.Wallet.CreditEarnedReceipt | earn_or_halt/wallet.py:50-56 | Credits earnings, or refuses a foreign receipt |
| AgentMachine.Wallet.CreditDepositTo | earn_or_halt/wallet.py:58-63 | Credits a deposit, or refuses a foreign one |
| AgentMachine.Wallet.Debit | earn_or_halt/wallet.py:65-82 | Spends deposits before earnings, or refuses |
| AgentMachine.Wallet.TransferResidual | earn_or_halt/wallet.py:84-89 | Returns the whole balance and empties both buckets |
| AgentMachine.Ledger.IngestReceipt | earn_or_halt/ledger.py:86-107 | Appends a receipt unless its id is known |
| AgentMachine.Ledger.IngestDeposit | earn_or_halt/ledger.py:109-121 | Appends a deposit unless its id is known |
| AgentMachine.Ledger.HasReceipt | earn_or_halt/ledger.py:171-178 | Tells whether the issuer and job pair is known |
| AgentMachine.Ledger.ReceiptsOf | earn_or_halt/ledger.py:133-169 | The loop returns exactly the matching rows |
| AgentMachine.ReceiptVerifier.Verify | earn_or_halt/receipts/verify.py:42-79 | The verdict, its checks in the code's order |
| AgentMachine.ReceiptVerifier.VerifyAndStore | earn_or_halt/receipts/verify.py:81-88 | Stores exactly the receipts that pass and are new |
| AgentMachine.Runtime.constructor | earn_or_halt/runtime.py:102-154 | A runtime on an empty ledger starts with its starter credit |
| AgentMachine.Runtime.AskPolicy | earn_or_halt/runtime.py:222-231 | A halt empties the wallet |
| AgentMachine.Runtime.RunEconomicCycle | earn_or_halt/runtime.py:156-233 | Full new state and how the cycle ended, for any provider |
| AgentMachine.Runtime.CollectPayment | earn_or_halt/runtime.py:207-233 | The second half of the cycle |
| AgentMachine.Runtime.RunMock | earn_or_halt/runtime.py:286-297 | The loop stops at the first halt with 1, in the state that cycle leaves, or runs all cycles and returns 0 |
| WalletAgreement.RecordedSums | earn_or_halt/receipts/store.py:25-41 | What one recorded receipt adds to the recomputed totals |
| AgentRecords.StoredExactly | earn_or_halt/receipts/verify.py:42-88 | A receipt is stored if and only if it is unexpired, its amount in range, its issuer admitted, its job and id new and its signature present; otherwise the first of these that fails is the reason |
| AgentRecords.DepositsPayFirst | earn_or_halt/wallet.py:65-82 | Deposits fall by the bill or to nothing, and earnings fall only when no deposit is left |
| AgentRecords.DebitExactly | earn_or_halt/wallet.py:65-74 | A debit is refused for another version's bill and for one above the balance, and for no other |
| AgentRecords.CreditsKeptApart | earn_or_halt/wallet.py:50-63 | Earnings and deposits are credited to their own buckets, and only earnings count as revenue |
| AgentRecords.HaltExactly | earn_or_halt/policy.py:43-105 | The reason of a halt and the balance it hands over, for any wallet |
| AgentRecords.CycleExactly | earn_or_halt/runtime.py:156-233 | For any inputs: the receipts a cycle stores, what it takes from deposits and from earnings and adds to them, and whether, when and why it halts |
| AgentRecords.ExitExactly | earn_or_halt/runtime.py:156-233 | Which exit a cycle takes, with its reason |
| AgentRecords.StartExactly | earn_or_halt/runtime.py:102-154 | A fresh agent has its starter credit as a deposit and nothing else |
| AgentRecords.WindowSums | earn_or_halt/receipts/store.py:25-41 | A receipt adds its amount to the sums of its version and kind, when it is not older than the window |
| AgentRecords.LastEarnedExactly | earn_or_halt/receipts/store.py:49-52 | The time of the version's latest earning, or 0 without one |
| WalletAgreement.CycleGaps | earn_or_halt/runtime.py:156-233 | Whatever the provider bills, wallet and ledger drift apart exactly by a stored bill the wallet cannot pay |
| WalletAgreement.HonestNeverOverbills | earn_or_halt/runtime.py:169-193 | A provider that bills what it quoted never causes that |
| WalletAgreement.CycleStaysUnique | earn_or_halt/receipts/verify.py:81-88 | A cycle never records an issuer and job pair or a receipt id twice |
| WalletAgreement.CycleFunded | earn_or_halt/wallet.py:50-89 | Until a halt the balance is deposits plus profit; a halt record carries that sum and empties the wallet |
| WalletAgreement.PolicyExact | earn_or_halt/policy.py:43-105 | The policy lets the agent go on if and only if it has money or profit, its loss is at most half of its deposits and its last earning is recent |
| WalletAgreement.LossBounded | earn_or_halt/policy.py:78-91 | A cycle never loses more than the deposits, and at most half of them where the policy was asked and let it go on |
| WalletAgreement.LossPassesHalf | earn_or_halt/runtime.py:156-233 | From a loss of at most half of the deposits a cycle passes half without a halt if and only if its bill is stored and paid, its payment refused, and the loss with the bill is more than half |
| AgentRuns.LossCanPassHalf | earn_or_halt/runtime.py:207-216 | With a payer the verifier does not know, a mock run of any length takes the loss past half of the credit at the 17th cycle and no sooner; no cycle halts before the 34th, and the 34th halts with a balance of 100 |
| AgentRuns.RunAgrees | earn_or_halt/runtime.py:156-233 | After any run from an empty ledger, with any provider, the wallet equals the recomputed sums if and only if no cycle was overbilled |
| AgentRuns.OverbilledBreaks | earn_or_halt/runtime.py:169-193 | A concrete first cycle, quoted 300 and billed 20000, after which wallet and ledger disagree |
| AgentRuns.HonestRunAgrees | earn_or_halt/runtime.py:156-233 | With honest bills the wallet always equals the recomputed sums |
| AgentRuns.RunStaysUnique | earn_or_halt/ledger.py:171-178 | No run records an issuer and job pair or a receipt id twice |
| AgentRuns.RunLossBounded | earn_or_halt/policy.py:78-91 | Along a run the loss never exceeds the starter credit, is at most half of it where the policy lets the agent go on, and a halt hands over exactly credit plus profit |
| AgentRuns.MockRunProspers | earn_or_halt/runtime.py:286-297 | The mock run never halts, however long, and earns its quote every cycle |
| Ranking.Rank | earn_or_halt/selection/rank.py:52-89 | The loops build, sort and number the table as specified |
| Ranking.RankIsPermutation | earn_or_halt/selection/rank.py:52-89 | The table is the versions' rows in some order, only the rank added |
| Ranking.EntriesExact | earn_or_halt/selection/rank.py:63-76 | Every entry shows revenue, cost, their difference, balance and survival of a listed version over the last 30 days |
| Ranking.RankOrders | earn_or_halt/selection/rank.py:78-87 | Revenue less cost over the last 30 days never increases down the table, and ranks 1 to 3 are exactly its first three rows |
| Ranking.TiesKeepOrder | earn_or_halt/selection/rank.py:79 | The versions with any one profit stand in the table in the order they were given in |
| Ranking.AliveIsProfit | earn_or_halt/selection/rank.py:63-76 | A version is alive exactly when its windowed profit is positive, whatever its rank |
| Ranking.BalancesBuyNoRank | earn_or_halt/selection/rank.py:10-16 | Other balances leave every entry but its balance as it was |
| Ranking.AliveVersionsExact | earn_or_halt/selection/rank.py:96-100 | The surviving versions are exactly those in profit over the window |
| Ranking.TopNIsPrefix | earn_or_halt/selection/rank.py:91-94 | The routed versions are the first three rows |
| Sorting.SortDownSorts | earn_or_halt/selection/rank.py:79 | The sort gives the descending arrangement of its input |
| Sorting.SortDownStable | earn_or_halt/selection/rank.py:79 | The sort keeps the order of equal keys |

## Left out

- Hash identifiers: lineage, version, job, commit, authorization and receipt ids are terms over the fields they are hashed from, so collisions between ids are not modelled; the routing table breaks ties by comparing digests, and the digest is a parameter.
- Object identity: the source shares its version and job objects by reference; here they are values in maps, and the class groups the arena's tables and counters into records that a call assigns component by component.
- Default entries: reading a missing key of the source's default dictionaries inserts a zero; here it only reads as zero.
- Flags and counters nothing reads: the time of the last retrieval proof, the total of burnt bonds, the choice among a job's verifiers, and the version counter (`_version_nonce`), which rises even when the registration then raises for lack of money; "unchanged" in the results does not speak of them.
- Signatures, proofs and attestations: their verdicts are boolean inputs; the multi-signature rule sees the list of signers.
- One source function as several methods: settlement, the permutation, absorbing, squeezing, sliding an element into place, building one layer, checking signers, splitting a stale vault, collecting a payment and asking the policy are methods of their own.
- ContractMedian.MedianProfit: the contract's numbers are unbounded integers, without overflow of int256 or uint64.
- JobAuthorizer.AuthorizeJob: ABI decoding of the proof and the constructor's refusal of a zero root are not modelled.
- JobSchedule.AcceptedIsScheduled: nothing is assumed of the hash; instead of excluding collisions the result names the two strings.
- AgentMachine.Ledger.ReceiptsOf: the order of the rows by time is not modelled; every use sums them, takes a maximum or asks whether there are any.
- AgentMachine.Runtime.constructor: only a runtime on an empty ledger is modelled; restarting on an old ledger does not rebuild the wallet.
- Ranking.Rank: the signal is the exact integer profit; the source's conversion to a binary float can merge profits above 2^53.
- A bill for another version: the source stores it and then raises an error the cycle does not catch, so the agent's loop ends there (`earn_or_halt/runtime.py:187-193`); in the model the cycle ends as `BillForeign` and a run may go on.
- Parsing of hexadecimal and JSON, hexadecimal output and the command lines: input and output.
- Heartbeats and ejection timers of the agent, the coin client, resurrection, the token and registry contracts, and the rest of `EohArena.sol`: small timers, mocks, input and output, or a repetition of the arena model.
