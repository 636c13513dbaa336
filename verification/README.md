# Verified model of the Lino chain's state machines

This project models in Dafny 4.11 the parts of Lino that carry arithmetic and
whole-run invariants, and proves what they keep.

| file | models |
|---|---|
| `Basics.dfy`, `Sums.dfy` | lists without duplicates, sums over maps and sequences |
| `Coins.dfy` | coins, half-to-even rounding, seven-decimal ratios, rounded shares |
| `KeySale.dfy`, `TopIndex.dfy` | the price of keys with its binary search; the truncated top-N index and the round result |
| `Reputation.dfy`, `RepLedgers.dfy`, `RepHistory.dfy`, `LazySettlement.dfy`, `ReputationStore.dfy` | the reputation game: operations and runs, its ledgers, what its records say about the history, lazy against eager settlement, and the store changed in place |
| `CoinDay.dfy` | the coin-day queue of an account, and the account record changed in place |
| `Stake.dfy`, `StakeInterest.dfy`, `Delegations.dfy`, `StakeRuns.dfy`, `StakeLedger.dfy` | stake, daily friction and interest, delegations, the minute ticker, and the ledger changed in place |
| `RewardWindow.dfy` | the consumption window and the content reward pool |
| `Validators.dfy`, `ValidatorLists.dfy`, `ValidatorRuns.dfy`, `ValidatorPenalties.dfy`, `ValidatorManager.dfy` | the validator set, its on-call list, runs and consensus updates, who is punished and how much, and the manager changed in place |
| `Scheduler.dfy` | time events and their execution by block |
| `CoinReturn.dfy` | instalments and the validator inflation payout |

A key-value store is a map, `sdk.Rat` an exact rational (`real`), `Coin` an
unbounded integer. Each machine is a `State` value with a `Step` function per
message or block and a `Run` over a list of operations; a message that fails
leaves the state as it was. Code that changes records step by step is a class
whose methods are proved equal to those steps and keep its invariant. Invariants are proved for every
step and by induction for every run.

Assumptions: block times are positive and never decrease, the chain start is
the first block time, validator parameters are fixed with a positive minimum
deposit, and the stake that covers a validator deposit is below the largest
int64. The evaluation of a donation is an arbitrary non-negative integer.

## Where the code is not what one would expect

* `x/account/manager.go:974` computes the sum of two deposits in one
  20-minute bucket and drops it. The second deposit raises `Saving` and stays
  outside the queue, so the queue is related to `Saving` by at most
  (`CoinDay.DepositTrackedIff`, `CoinDay.SecondDepositInBucketIsLost`).
* `x/account/manager.go:290-292` sets `CoinDay` to `Saving` once a withdrawal has
  emptied the queue. If saving lies outside of both, as after such a lost deposit,
  a withdrawal can therefore raise the coin-day (`CoinDay.WithdrawRaisesIff`,
  `CoinDay.WithdrawalRaisesCoinDay`).
* `x/vote/manager.go:157-180` reads both voter records before it writes either,
  so delegating to oneself loses the delegated power
  (`Delegations.DelegationBalancedIffDistinct`). Interest, friction and the power
  given away are not affected: their theorems hold for all runs.
* `x/vote/handler.go:219` calls `OnStakeIn` when stake is taken out; free score
  is therefore not related to stake here.
* `x/global/manager.go:272-276` copies the friction of a day without stake to
  the next day and also leaves it on the old one; only days that had stake, and
  today, count as owing friction.
* `x/validator/manager.go:498` starts the search for the lowest deposit at the
  largest int64 and finds nobody if every deposit is at least that
  (`ValidatorLists.LowestIsLowest`, `ValidatorLists.HugeDepositIsNeverLowest`).

## Model

| member | source | states |
|---|---|---|
| Coins.RatToCoin | types/coin.go:70-73 | the nearest coin, and of two equally near ones the even one |
| Coins.RatToCoinGap | types/coin_test.go:207-249 | two rationals less than n apart round to coins at most n apart |
| Coins.PartGap | x/post/handler.go:154-168 | the rounded part of a larger amount is larger by at most the difference of the amounts |
| Coins.PartIsNear | types/coin.go:70-73 | a rounded part is the coin nearest to the exact one |
| Coins.PartOfNearRate | types/coin.go:70-73 | a part by a rate that is off by at most a bound is off by half a coin and the coins times that bound |
| KeySale.NumKeysCanBuy | x/reputation/internal/reputation.go:139-187 | the binary search returns what buying keys one at a time yields, up to the cap plus one |
| KeySale.OneByOneIsLargest | x/reputation/internal/reputation.go:104-187 | buying one at a time is the largest affordable number of keys under the cap |
| KeySale.LargestIsUnique | x/reputation/internal/reputation.go:139-187 | there is only one such number, so search and one-at-a-time purchase agree |
| KeySale.CostClosedForm | x/reputation/internal/reputation.go:139-187 | the sum of rising prices is the quadratic formula that the search inverts |
| KeySale.SplittingNeverPays | x/reputation/internal/reputation.go:104-187 | consecutive purchases totalling at most the cap never yield more keys than one purchase of the whole stake |
| TopIndex.StableSortKeeps | x/reputation/internal/store.go:512-517 | sorting keeps every entry as often as it was there and orders them by falling donation power |
| TopIndex.StableSortIsStable | x/reputation/internal/store.go:512-517 | entries of equal power stay in the order they had |
| TopIndex.UpdatedIsTop | x/reputation/internal/store.go:495-524 | one update keeps the truncated index the true top n of all posts: sorted, distinct, current, nothing larger outside |
| TopIndex.SetTopN | x/reputation/internal/store.go:495-524 | the loop that replaces or appends, sorts and truncates yields exactly that updated index |
| TopIndex.IndexMatchesFullSort | x/reputation/internal/store.go:495-524 | the kept index shows position by position the powers of a full sort of all posts cut at n |
| TopIndex.RoundResult | x/reputation/internal/reputation.go:250-275 | the loop over the index returns the positively rated posts, in order, of the shortest covering prefix, skipping posts without power |
| TopIndex.CoverIsUnique | x/reputation/internal/reputation.go:250-275 | there is only one shortest non-empty prefix reaching the bound |
| Reputation.SettleOnce | x/reputation/internal/reputation.go:39-76 | settling a user changes only that user's record, pays a round at most once, and is idempotent |
| Reputation.NewScoreRule | x/reputation/internal/reputation.go:60-75 | the new score is nine parts of the old and one of the earnings, rounded down, unless the decay or the initial score is larger |
| Reputation.ScoreRuleIsUnique | x/reputation/internal/reputation.go:60-75 | that rule leaves only one score |
| Reputation.ShareIsProportional | x/reputation/internal/reputation.go:49-58 | the share of a post is its stake times the part of its keys that the user holds, rounded down |
| Reputation.SettlementRule | x/reputation/internal/reputation.go:39-76 | a settled user gets one such share for each best post of the round last donated in, and the score that the rule makes of their sum |
| Reputation.UsedDp | x/reputation/internal/reputation.go:87-90 | all of the stake counts, unless what the user ever donated to the post reaches the reputation, and then exactly up to there |
| ReputationStore.Store.GetSettledCustomerScore | x/reputation/internal/reputation.go:39-76 | the score moves from the old one towards the sum of the shares by one tenth, rounded down, but by no more than the decay allows and not below the initial score; each share is the stake times the part of the keys held, rounded down; the settlement in place equals the specified one and keeps all ledgers |
| ReputationStore.Store.DonateToRound | x/reputation/internal/reputation.go:93-98 | the three increments, the key purchase and the index update of one donation |
| ReputationStore.Store.DonateAt | x/reputation/internal/reputation.go:79-101 | a donation in place equals the specified step, rejects empty names, and all of it counts unless the donor's reputation on the post is used up |
| ReputationStore.Store.ReportAt | x/reputation/internal/reputation.go:221-231 | a report in place equals the specified step and returns the new reputation of the post |
| ReputationStore.Store.IncFreeScore | x/reputation/internal/reputation.go:239-242 | free score is added to one user only |
| ReputationStore.Store.Update | x/reputation/internal/reputation.go:245-278 | the end of a round in place equals the specified step |
| RepLedgers.StepKeeps | x/reputation/internal/reputation.go:79-278 | every operation keeps all ledgers of the game |
| RepLedgers.RunKeepsInv | x/reputation/internal/reputation.go:79-278 | in every run a post's reputation is the sum of last donor minus last reporter reputations, a round's power the sum over its posts, a post's power over all rounds the sum over its donors, held keys add up to keys sold, and no score is below the initial one |
| RepLedgers.SettlementWithinStake | x/reputation/internal/reputation.go:46-59 | in every reachable state held keys add up to keys sold and the floor-divided shares of all holders stay within the stake |
| RepLedgers.RoundEndsWithBestPosts | x/reputation/internal/reputation.go:245-278 | a reachable round ends with exactly the positively rated posts with power of the shortest prefix covering 80 percent of all donation power |
| RepLedgers.DonatedWithinPeakRep | x/reputation/internal/reputation.go:79-101 | what a user ever donated to a post with effect never exceeds the highest reputation the user had when donating to it |
| RepLedgers.NewScoreBetween | x/reputation/internal/reputation.go:60-75 | a settled score stays within what it averages and grows with what was earned |
| RepHistory.HeldKeysWereBought | x/reputation/internal/reputation.go:104-112 | in every run a user holds exactly the keys that the user's own donations to the post bought while the round was open |
| RepHistory.StepPost | x/reputation/internal/reputation.go:79-112 | of all operations only a donation changes the records of a post in a round, only those of its own post and in the open round |
| RepHistory.StakesWereGiven | x/reputation/internal/reputation.go:98-101 | in every run a post's stake in a round is the sum of the stakes donated to it while the round was open, and its power the sum of what counted |
| RepHistory.NotedRepsAreLast | x/reputation/internal/reputation.go:93-231 | in every run the reputations noted for a user and a post are those at the last donation and at the last report |
| RepHistory.FreeScoreWasGiven | x/reputation/internal/reputation.go:239-242 | in every run free score is the sum of what was added |
| RepHistory.StepRound | x/reputation/internal/reputation.go:245-278 | a round ends with the first block that is late enough and with nothing else, and the next one starts at the time of that block |
| RepHistory.RoundsTakeTheirTime | x/reputation/internal/store.go:472-486 | in every run a round starts at the time of the block that opened it, and no round is followed by the next before its duration has passed |
| LazySettlement.PastRoundsAreFrozen | x/reputation/internal/store.go:34-37 | no operation changes a round that has ended |
| LazySettlement.StepRelated | x/reputation/internal/reputation.go:39-101 | one operation answers the same in the lazy and the eager game and keeps them related |
| LazySettlement.LazyRefinesEager | x/reputation/internal/reputation.go:39-101 | over every run lazy settlement gives every answer and every score of the game that settles all donors when a round ends |
| CoinDay.CutTracks | x/account/manager.go:256-289 | taking coins off any entry keeps both aggregates equal to the queue |
| CoinDay.RefreshKeeps | x/account/manager.go:1000-1051 | a refresh drops exactly the entries that have expired, turns exactly their coins into coin-day, and keeps the aggregates exact |
| CoinDay.CutTailKeeps | x/account/manager.go:256-289 | the tail-first withdrawal keeps the aggregates exact, loses no more coin-day than coins, and takes the whole amount unless the queue runs empty |
| CoinDay.CutTailCutsNewest | x/account/manager.go:256-289 | tail first: what is left of the queue is a prefix of it, of which only the newest entry may have lost coins |
| CoinDay.CutHeadKeeps | x/account/manager.go:347-383 | the head-first withdrawal keeps the aggregates exact, takes as much as the queue holds, and loses less coin-day than coins |
| CoinDay.CutHeadCutsOldest | x/account/manager.go:347-383 | head first: what is left of the queue is a suffix of it, of which only the oldest entry may have lost coins |
| CoinDay.SpendTakesOldest | x/account/manager.go:306-395 | a payment takes matured coin-day first and leaves the queue alone if that suffices; otherwise it empties it and takes the rest off the oldest entries, as far as they reach |
| CoinDay.WithdrawTakesNewest | x/account/manager.go:214-303 | a withdrawal takes the newest entries first; only if it exceeds the queue does it touch what has matured |
| CoinDay.DepositBecomesNewest | x/account/manager.go:126-174 | a tracked deposit becomes the last entry of the queue, starting now and ending one recovery time later, and nothing else in the queue changes |
| CoinDay.WithdrawnValue | x/account/manager.go:214-303 | a withdrawal that the queue covers lowers the coin-day by no more than its coins; a larger one leaves all saving as coin-day |
| CoinDay.RunKeepsInv | x/account/manager.go:97-395 | in every run TotalCoin and TotalCoinDay are exact, start times strictly increase, nothing pending has expired, and CoinDay plus TotalCoin is at most Saving |
| CoinDay.CoinDayNeverExceedsSaving | x/account/manager.go:97-123 | in every reachable state and at every later time GetCoinDay lies between zero and Saving |
| CoinDay.DonatedCoinDayWithinCoin | x/post/handler.go:133-150 | a donation consumes between zero and its own amount of coin-day, under both roundings |
| CoinDay.DepositTrackedIff | x/account/manager.go:965-980 | a deposit enters the queue if and only if the newest entry belongs to another bucket; otherwise all of it stays outside |
| CoinDay.FullDepositCountsAtOnce | x/account/manager.go:177-211 | a deposit with full coin-day raises the coin-day by its coins at every later time and leaves the untracked saving as it was |
| CoinDay.WithdrawRaisesIff | x/account/manager.go:214-303 | a withdrawal raises the coin-day if and only if it exceeds the queue and the saving outside of coin-day and queue more than makes up for it |
| CoinDay.TrackedWithdrawNeverRaises | x/account/manager.go:214-303 | without such saving no withdrawal raises the coin-day |
| CoinDay.WithdrawalRaisesCoinDay | x/account/manager.go:290-292 | a run in which a withdrawal raises the coin-day from 0 to 40 |
| CoinDay.SecondDepositInBucketIsLost | x/account/manager.go:971-976 | a run in which the discarded sum loses the second deposit |
| CoinDay.AccountRecord.UpdateTXFromPendingCoinDayQueue | x/account/manager.go:1000-1051 | the loop over the queue equals the specified refresh |
| CoinDay.AccountRecord.AddSavingCoin | x/account/manager.go:126-174 | the deposit becomes the newest entry or stays outside of the queue; saving grows by it, the invariant is kept, and the new state is the specified one |
| CoinDay.AccountRecord.AddSavingCoinWithFullCoinDay | x/account/manager.go:177-211 | the deposit is matured at once: whenever it is read, the coin-day is higher by its coins; the invariant is kept and the queue untouched |
| CoinDay.AccountRecord.MinusSavingCoin | x/account/manager.go:214-303 | succeeds exactly if the minimum balance stays; takes the newest entries first; keeps the invariant and equals the specified withdrawal; a failure changes nothing |
| CoinDay.AccountRecord.MinusSavingCoinWithFullCoinDay | x/account/manager.go:306-395 | succeeds exactly if the minimum balance stays; takes matured coin-day and then the oldest entries; keeps the invariant and equals the specified spending; a failure changes nothing |
| CoinDay.AccountRecord.GetCoinDay | x/account/manager.go:97-123 | the value read after a refresh lies between zero and the saving |
| CoinDay.AccountRecord.Donate | x/post/handler.go:133-150 | the coin-day consumed by a payment lies between zero and the payment, and the invariant is kept |
| StakeInterest.ClaimWithinFriction | x/global/manager.go:243-257 | one claim takes a proportional share of a day's unclaimed friction, between nothing and all of it, and the holder of all unclaimed stake takes exactly the remainder |
| StakeInterest.ClaimIsFair | x/global/manager.go:243-257 | the interest of one day is the coin nearest to the stake's proportional share of the unclaimed friction |
| StakeInterest.InterestMonotone | x/global/manager.go:243-257 | a larger stake never earns less |
| StakeInterest.ClaimDaysAreFair | x/global/manager.go:230-259 | over many days the interest is the sum of those of the days, each of them a fair one, and no other day is touched |
| StakeInterest.ClaimDaysEffect | x/global/manager.go:230-259 | a claim over many days moves exactly the interest out of the friction of those days and its stake out of their counters |
| StakeInterest.AccrueEffect | x/vote/handler.go:228-254 | settling credits the claimed interest to its voter and takes it out of the friction owed |
| Delegations.ChangeStakeVoters | x/vote/handler.go:183-226 | of all voter records, moving stake changes one, by the amount moved |
| StakeInterest.StakeIsUnclaimed | x/vote/handler.go:228-254 | a voter's stake is part of the unclaimed stake of each day the voter has yet to claim |
| StakeInterest.ChangeStakeKeeps | x/vote/handler.go:183-226 | staking in or out keeps every daily counter equal to its sum of stakes |
| StakeInterest.MinuteKeeps | x/global/manager.go:262-280 | a new day, with or without stake on the day before, keeps the counters and the friction owed |
| StakeInterest.StepKeeps | x/vote/handler.go:36-254 | every operation keeps the counters, and friction owed changes by friction in and interest out alone |
| StakeRuns.RunKeepsInv | x/global/manager.go:162-280 | in every run unclaimed stake of each day is the sum of stakes unchanged since, and all friction ever added is still owed or was paid out |
| StakeRuns.AcceptedIffLegal | x/vote/handler.go:36-181 | with the invariant a message is accepted if and only if its sender has the record, the stake or the delegation it needs: nothing fails for a missing daily record |
| StakeRuns.EveryClaimIsCovered | x/global/manager.go:230-259 | in every reachable state each day's claim is covered by its unclaimed stake and friction, and is the nearest coin to the proportional share |
| StakeRuns.EveryVoterCanClaim | x/global/manager.go:230-259 | in every reachable state no claim fails for a missing daily record |
| Delegations.PartsAddUp | x/vote/manager.go:134-182 | summed over names, delegations received and delegations given are both the sum of all delegations |
| Delegations.AddDelegationBalanced | x/vote/manager.go:134-182 | a delegation keeps either side of the books, the voters' side if voter and delegator differ |
| Delegations.DelegationBalancedIffDistinct | x/vote/manager.go:134-182 | a delegation keeps the books if and only if voter and delegator differ |
| Delegations.SelfDelegationLosesPower | x/vote/manager.go:157-180 | a run whose first message delegates to its sender and loses voting power |
| Delegations.WithdrawDelegationBalanced | x/vote/manager.go:230-271 | withdrawing a delegation keeps both sides of the books and deletes an empty one |
| Delegations.VotingPowerIsStake | x/vote/manager.go:303-310 | total voting power is total stake |
| Delegations.VotingPowerParts | x/vote/manager.go:303-310 | voting power is the own stake plus the delegations received minus those given |
| StakeRuns.RunKeepsDelegations | x/vote/handler.go:99-165 | in every run without self-delegation DelegatedPower is the sum received, DelegateToOthers the sum given and at most the stake |
| StakeRuns.VotingPowerInEveryRun | x/vote/manager.go:303-310 | in every such run voting power is the own stake plus what was received minus what was given, is never negative, and adds up to the total stake |
| StakeRuns.StakesAreOwn | x/vote/handler.go:36-97 | in every run a stake is what its owner staked in minus what the owner staked out |
| StakeRuns.DelegationsAreOwn | x/vote/handler.go:99-165 | in every run a delegation is what the delegator gave to the voter minus what was taken back |
| StakeRuns.ScheduleCounts | app/app.go:465-486 | up to any minute each periodic event is due once per full period |
| StakeRuns.DueInPeriodOrder | app/app.go:465-486 | the events of one minute fire in the order of their periods |
| StakeRuns.TickerFollowsTime | app/app.go:379-389 | however time is cut into blocks, minutes, fired events, their numbers and the recorded days are functions of the time since the start |
| StakeLedger.Ledger.GetInterestSince | x/global/manager.go:230-259 | the loop pays the nearest coin to the proportional share for each past day, equals the specified claim, and fails exactly for a missing record |
| StakeLedger.Ledger.ChangeStakeStat | x/global/manager.go:194-227 | today's total and unclaimed stake move alike; an error for a missing record |
| StakeLedger.Ledger.AddFriction | x/global/manager.go:162-191 | never fails, adds the friction to today's record and to what is owed, and keeps the ledger's invariant |
| StakeLedger.Ledger.CalculateAndAddInterest | x/vote/handler.go:228-254 | interest since the last change is credited and the time of change set |
| StakeLedger.Ledger.StakeIn | x/vote/handler.go:36-69 | succeeds exactly from the minimum on, equals the specified step, owes as much as before, and keeps the invariant |
| StakeLedger.Ledger.StakeOut | x/vote/handler.go:71-97 | succeeds exactly for voters who are no validators and have the stake free, equals the specified step, and keeps the invariant |
| StakeLedger.Ledger.AddDelegation | x/vote/manager.go:134-182 | the two records read before either is written back |
| StakeLedger.Ledger.Delegate | x/vote/handler.go:99-137 | succeeds exactly from the minimum on, equals the specified step, and keeps the invariant |
| StakeLedger.Ledger.DelegatorWithdraw | x/vote/handler.go:139-165 | succeeds exactly up to the delegation, equals the specified step, and keeps the invariant |
| StakeLedger.Ledger.Claim | x/vote/handler.go:167-181 | succeeds exactly for voters; what is paid and what stays owed add up to what was owed; keeps the invariant |
| StakeLedger.Ledger.RecordConsumptionAndLinoStake | x/global/manager.go:262-280 | a new day starts with yesterday's stake, and with its friction only if nobody had stake |
| StakeLedger.Ledger.Minute | app/app.go:465-486 | one minute fires what is due, in order |
| StakeLedger.Ledger.Block | app/app.go:368-389 | the catch-up loop ends with all minutes since the start counted, equals the specified block, and keeps the invariant |
| RewardWindow.PenaltyBetween | x/post/manager.go:272-293 | the penalty score lies between zero and one for every reputation and parameter |
| RewardWindow.PenaltyIsShare | x/post/manager.go:272-293 | no penalty for a non-negative reputation, the full one from the maximum on, and in between the share of the maximum to seven decimals |
| RewardWindow.PenaltyMonotone | x/post/manager.go:272-293 | a worse reputation never has a smaller penalty |
| RewardWindow.RewardBetween | x/global/manager.go:403-430 | a reward lies between zero and the pool; the whole window without penalty takes all, full penalty nothing |
| RewardWindow.RewardIsShare | x/global/manager.go:414-420 | a reward is the pool times the evaluation's part of the window less the penalty, within half a coin and half a unit of the seventh decimal of the pool |
| RewardWindow.RewardMonotone | x/global/manager.go:414-420 | a larger evaluation or a smaller penalty never earns less |
| RewardWindow.HalfBetween | x/post/event.go:73-75 | income is half of the reward, an odd coin going to the half that makes the income even |
| RewardWindow.DonationIsSplit | x/post/handler.go:150-215 | the source receives one minus the split rate of the donation and of its coin-day, friction is the friction rate of either part, all to the nearest coin; the parts add up to the donation, none is negative, and each gets coin-day between zero and its coins |
| RewardWindow.StepKeeps | x/global/manager.go:162-191 | each donation, payout and inflow keeps the window equal to the pending evaluations and the pool balanced |
| RewardWindow.RunKeepsInv | x/global/manager.go:403-430 | in every run the window is the sum of pending evaluations, and pool plus all rewards is all inflation received |
| RewardWindow.EveryEventExecutes | x/global/manager.go:403-430 | in every reachable state no pop divides by zero and every reward is within the pool |
| RewardWindow.RewardsGoToAuthors | x/post/event.go:73-84 | in every run an author has received, as income and as stake, exactly the rewards of the author's own events |
| RewardWindow.ExecutePaysByRule | x/post/event.go:38-86 | an executed event has the penalty of its reputation (the full one if deleted) and the proportional reward; half of it goes to its author as income, the rest to the same author as stake, and nothing to anybody else |
| RewardWindow.SoleEventDrainsPool | x/global/manager.go:403-430 | the only pending event, without penalty, takes the whole pool |
| RewardWindow.RewardPool.GetRewardAndPopFromWindow | x/global/manager.go:403-430 | the reward is the proportional one; pool and window shrink by reward and evaluation |
| RewardWindow.RewardPool.Execute | x/post/event.go:38-86 | pays by that rule, within the pool, and equals the specified step |
| ValidatorLists.LowestIsLowest | x/validator/manager.go:492-520 | the search finds nobody if and only if every on-call deposit is at least the largest int64, and a true lowest otherwise |
| ValidatorLists.LowestIsFirst | x/validator/manager.go:492-520 | of several lowest deposits the search finds the first on the list |
| ValidatorLists.HugeDepositIsNeverLowest | x/validator/manager.go:498-511 | an on-call list on which the search finds nobody |
| ValidatorLists.BestIsBest | x/validator/manager.go:524-547 | the search names a highest standby deposit, and nobody only if nobody stands by |
| ValidatorLists.BestIsFirst | x/validator/manager.go:524-547 | of several highest standby deposits the search finds the first on the list |
| ValidatorLists.TryBecomeKeeps | x/validator/manager.go:378-432 | joining keeps or restores size, order and cached lowest of the on-call list |
| ValidatorLists.AdjustKeeps | x/validator/manager.go:459-474 | one promotion or one swap repairs the list after one removal or one lowered deposit; unless a deposit is too low, nobody on call is replaced |
| ValidatorLists.RemoveFromAllKeeps | x/validator/manager.go:435-455 | the others stay listed in their order, those on call keep their places with at most a promotion behind them, and the invariant is kept |
| ValidatorLists.PunishKeeps | x/validator/manager.go:179-222 | punishing anybody, on call or not, keeps the highest deposits on call |
| ValidatorRuns.PunishFines | x/validator/manager.go:179-222 | the actual penalty is the drop in the stored deposit and at least the nominal one as far as the deposit reaches; nobody else pays |
| ValidatorRuns.FireOneFines | x/validator/manager.go:238-264 | the reported penalty of one validator is the drop of deposits |
| ValidatorRuns.FireFines | x/validator/manager.go:225-268 | over the whole firing loop, with replacements in between, deposits plus penalties stay constant |
| ValidatorPenalties.FireOneTreats | x/validator/manager.go:238-264 | a byzantine validator loses the whole deposit, one absent too often is fined and counted anew, one that is both suffers both, and everybody else is left alone |
| ValidatorPenalties.FireTreats | x/validator/manager.go:225-268 | the loop treats everybody on the list once by that rule, whatever replacements it makes, and touches nobody else |
| ValidatorPenalties.ListedIffDeposit | x/validator/manager.go:203-222 | with the invariant exactly those with a deposit are listed |
| ValidatorPenalties.BeginTreats | x/validator/tick.go:10-25 | in one block everybody on call at its beginning is counted and then treated by the rule, nobody else is touched, and those without deposit are off the lists |
| ValidatorPenalties.MissedVoteCosts | x/validator/manager.go:271-288 | each of those who missed a vote is fined once, by the fine for it or all that is left above the minimum deposit, and nobody else |
| ValidatorRuns.PunishAllFines | x/validator/manager.go:271-288 | punishing those who missed a vote keeps deposits plus penalties constant |
| ValidatorRuns.SigningCounts | x/validator/manager.go:141-176 | each on-call validator's absence is counted once and no deposit changes |
| ValidatorPenalties.SigningIsCounting | x/validator/manager.go:141-176 | one more missed block for each who did not sign, one less but not below zero for each who did, and nothing for those not on call |
| ValidatorRuns.UpdatesReachOncall | x/validator/manager.go:89-119 | applying the update list to the validators before the block gives exactly those on call |
| ValidatorRuns.ClearedKeeps | x/validator/manager.go:89-107 | a record is deleted if and only if its owner left the on-call list during the block and has no deposit; all others stay as they are |
| ValidatorRuns.DepositWithinOwnCoins | x/validator/handler.go:31-136 | in every run a deposit is at most what its owner put in and did not take out |
| ValidatorRuns.StepKeeps | x/validator/handler.go:31-136 | every block tick and message keeps the whole invariant, and money changes by coins in and out alone |
| ValidatorRuns.RunKeepsInv | x/validator/handler.go:31-136 | in every run the invariant holds, and deposits plus inflation pool are what came in |
| ValidatorRuns.OncallIsHighest | x/validator/manager.go:376-474 | in every run on-call is a duplicate-free part of the list, as large as room allows, no standby deposit exceeds an on-call one, and the cached lowest is real |
| ValidatorRuns.ConsensusFollowsOncall | x/validator/manager.go:89-119 | in every run the update list is never refused and after each block consensus knows exactly the on-call validators |
| ValidatorManager.RemoveName | x/validator/manager.go:476-490 | the splicing loop removes every occurrence and nothing else |
| ValidatorManager.Manager.UpdateLowestValidator | x/validator/manager.go:492-520 | the loop stores the specified lowest |
| ValidatorManager.Manager.GetBestCandidate | x/validator/manager.go:524-547 | the loop returns the specified candidate |
| ValidatorManager.Manager.TryBecomeOncallValidator | x/validator/manager.go:378-432 | in place, equal to the specified state; fails exactly without a record or the minimum deposit |
| ValidatorManager.Manager.AdjustValidatorList | x/validator/manager.go:459-474 | in place, equal to the specified state |
| ValidatorManager.Manager.RemoveValidatorFromAllLists | x/validator/manager.go:435-455 | in place, equal to the specified state |
| ValidatorManager.Manager.PunishOncallValidator | x/validator/manager.go:179-222 | equals the specified state and penalty; without a record an error and no change |
| ValidatorManager.Manager.FireIncompetentValidator | x/validator/manager.go:225-268 | the loop over the list as first read equals the specified firing of the theorems above |
| ValidatorManager.Manager.UpdateSigningValidator | x/validator/manager.go:141-176 | the loop equals the specified counting |
| ValidatorManager.Manager.PunishValidatorsDidntVote | x/validator/manager.go:271-288 | equals the specified punishment with money conserved; stops with an error at the first name without a record, after those before it |
| ValidatorManager.Manager.BeginBlocker | x/validator/tick.go:10-25 | counts, fires and fines by the rule; equals the specified step, and money is conserved |
| ValidatorManager.Manager.HandleDeposit | x/validator/handler.go:31-81 | accepted exactly if the deposit reaches the minimum and stays within the stake; equals the specified step and keeps the invariant |
| ValidatorManager.Manager.HandleWithdraw | x/validator/handler.go:84-111 | accepted exactly from a validator not on call, from the minimum withdrawal on and as far as the deposit reaches; equals the specified step and keeps the invariant |
| ValidatorManager.Manager.HandleRevoke | x/validator/handler.go:113-136 | accepted exactly with a deposit, returns all of it, equals the specified step and keeps the invariant |
| ValidatorManager.Manager.EndBlocker | x/validator/manager.go:89-119 | the update list, the deleted records, and consensus equal to the on-call list |
| Scheduler.RegisterKeepsFrontier | x/global/manager.go:44-60 | registering during execution never touches the bucket that is being executed and loses nothing |
| Scheduler.ExecuteListKeeps | app/app.go:426-452 | executing a bucket logs its events in order of registration, whatever they register meanwhile |
| Scheduler.ExecuteUntilKeeps | app/app.go:413-418 | the loop over the seconds executes exactly what is due before the block |
| Scheduler.RunKeepsInv | app/app.go:407-423 | every run keeps the scheduling invariant |
| Scheduler.EveryEventRunsOnce | app/app.go:407-423 | in every run an event has been executed if and only if it was due before the last block and waits in its bucket otherwise; never twice, in order of due time and registration |
| Scheduler.EventsRunOnTime | app/app.go:407-423 | each event ran in the first block later than its due time: the blocks later than that are this one and those after it |
| Scheduler.OrderIgnoresBlocks | app/app.go:407-423 | two runs that registered the same events and reached the same time executed the same events in the same order, however time was cut into blocks |
| Scheduler.Chain.RegisterEventAtTime | x/global/manager.go:44-60 | appends to the bucket of the due time, and fails exactly for a time that has passed |
| Scheduler.Chain.RegisterCoinReturnEvent | x/global/manager.go:283-292 | registers the instalments one interval apart, and fails exactly if there is one and the interval is negative |
| Scheduler.Chain.ExecuteEvents | app/app.go:426-452 | the loop over a bucket equals the specified execution |
| Scheduler.Chain.ExecuteTimeEvents | app/app.go:407-423 | the loop over the seconds equals the specified execution |
| Scheduler.Chain.BeginBlock | app/app.go:368-403 | the scheduling part of a block equals the specified step and keeps the invariant |
| CoinReturn.PieceKeepsEven | x/account/event.go:36-42 | double rounding yields the floor or the ceiling of an even share and leaves an evenly divisible rest |
| CoinReturn.CreateCoinReturnEvents | x/account/event.go:29-47 | the instalments sum exactly to the coin and each is the floor or the ceiling of an even share |
| CoinReturn.DistributeInflationToValidator | app/app.go:514-531 | the hourly validator inflation is paid out completely and evenly over a non-empty on-call list |

## Left out

- Store encodings, codecs, error codes, genesis import and state export, clients and command line.
- Signatures, permissions, public keys: a validator is identified by its name, and evidence and signing records name validators; that public keys are unique is not claimed.
- The evaluation of a donation (floating point) and the tracking of donation counts between accounts.
- Distribution of inflation to developers and infrastructure providers, growth rates, and the total supply figure in the global record.
- Proposals, votes and parameter changes; the list of validators who missed a vote is given.
- Balance history, frozen money lists and transaction capacity of an account; the transfer from or to a bank is taken to have succeeded, with the amount as parameter.
- The 255-bit limit of `sdk.Int`: coins are unbounded.
- A panic of the application (an event that fails in `beginBlocker`), and the roll-back of handlers that fail halfway: the model shows the failures it covers to be unreachable instead.
- A failed `TryBecomeOncallValidator` inside `AdjustValidatorList` leaves the lists as they are in the model; the candidate always qualifies in reachable states.
- Genesis validators: runs of the validator machine start from the empty chain, or from any state that satisfies the invariant.
- Payouts from the validator inflation pool to validators are not part of the validator machine; `CoinReturn.DistributeInflationToValidator` models them alone.
- The Go maps and slices are values held in fields; aliasing between slices is not modelled.
- Scheduler.EveryEventRunsOnce: what an executed event does besides registering further events is not modelled here.
- RewardWindow.RunKeepsInv: pending events may be executed in any order, which covers the order of the scheduler.
- Delegations.VotingPowerIsStake: needs that nobody delegates to oneself, because the code loses that update.
