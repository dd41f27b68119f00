# Continuous Rewarding — a Dafny model

This project models the `rewarding` application of the ikwen platform, a loyalty program
("Continuous Rewarding", CR). Operators publish coupons. Each coupon has a heap size, a monthly
quota of winners and a type that fixes its coefficient. Members collect coupon units:

- when they join a community;
- when they pay online, with an amount that falls in a payment interval;
- by manual grant or donation;
- through the daily free-reward cron.

A member whose cumulated units reach a coupon's heap becomes a winner. The heap can then be
consumed. Operators pay for the program through invoices that are issued, reminded, marked
overdue and finally cause suspension.

The model is written in the source's own form:

- the ORM tables are the fields of one class, `Models.Db`;
- every cron and utility that updates rows is a method that changes `Db`;
- every such method is proved equal to a pure specification function over a `Tables` snapshot;
- the properties the program promises are lemmas about those functions.

Randomness, the clock, mail delivery and the text helper `slugify` are parameters.

Modules, one per source file of the `rewarding` package:

- `Models` (`models.dfy`, models.py): records, the coupon save rule, `to_dict`, `get_status`,
  the profile tiers and the `Db` class;
- `Ledger` (`ledger.dfy`, utils.py): `reward_member`, `get_last_reward`, `use_coupon`,
  `donate_coupon`;
- `Quota`, `Chance`, `Selection`, `RewardCrons` (`quota.dfy`, `chance.dfy`, `selection.dfy`,
  `rewardcrons.dfy`, reward_crons.py): `prepare_rewards`, `offer_free_coupon`,
  `get_remaining_days_in_month`, and the random draws they use;
- `SendGate` (`sendgate.dfy`, reward_crons.py): `group_rewards_by_service`, `send_free_rewards`;
- `Billing` (`billing.dfy`, billing_crons.py): the four invoicing crons;
- `Views` (`views.dfy`, views.py): `save_billing`, `save_rewards_packs`, `update_filename` and
  the file-name search of `upload_complete`;
- `Admin` (`admin.dfy`, admin.py): `CROperatorProfileAdmin.save_model`.

## Model

| member | source | states |
|---|---|---|
| Models.DaysBetween | rewarding/reward_crons.py:206-207 | the `.days` of a time difference is its floor in whole days |
| Models.Saved | rewarding/models.py:79-91 | saving a coupon changes at most its coefficient, and a coefficient of at least 1 stays at least 1 |
| Models.SavedCoefficientFollowsType | rewarding/models.py:84-89 | discount gives coefficient 1, gift 2, purchase order 3; other types keep theirs; saving is idempotent; same type gives the same coefficient |
| Models.ToDict | rewarding/models.py:93-103 | the dict loses the hidden fields deleted before the first missing one (the bare `except` stops the deletions); every other field keeps its value |
| Models.PresentPrefix | rewarding/models.py:95-102 | the number of hidden fields deleted is the length of the prefix of present keys |
| Models.PendingCountPositive | rewarding/models.py:255-257 | the pending count is positive iff some coupon of the service is pending approval |
| Models.GetStatusPendingIff | rewarding/models.py:254-259 | the status is "pending for approval" iff some coupon of the service is pending, and it is never "rejected" |
| Models.TiersOrdered | rewarding/models.py:199-205 | join < payment < manual < free, every tier lies between them, and a new profile starts at the bottom |
| Models.CouponsOf | rewarding/utils.py:52 | the coupon query returns stored coupons of the service that pass the filter |
| Models.CouponsOfDistinct | rewarding/models.py:70-74 | coupons read through distinct ids are distinct rows equal to the stored ones |
| Models.ServiceCouponsDistinct | rewarding/utils.py:52 | the coupons of a service are distinct stored rows with coefficient at least 1 |
| Models.Db.SaveCoupon | rewarding/models.py:79-91 | the stored table is the old table with the saved coupon written at its id |
| Models.SaveKeepsConsistent | rewarding/models.py:79-91 | saving a coupon with a positive coefficient keeps the tables consistent |
| Ledger.FirstPaymentPack | rewarding/utils.py:105-106 | the payment pack found has floor < amount <= ceiling; none found means no pack of that coupon covers the amount |
| Ledger.GrantAllTotals | rewarding/utils.py:51-70 | one grant loop adds the pack units to the returned total and to the summary count, and adds the weighted units to the coupon score |
| Ledger.GrantAllBalances | rewarding/utils.py:58-60 | each coupon's cumulated count grows by its pack count and no other member's or coupon's balance changes |
| Ledger.GrantAllThreshold | rewarding/utils.py:65-67 | the threshold flag is set iff it was set or some granted coupon reached its heap; each such coupon records a new uncollected winner |
| Ledger.GrantAllRecordsRewards | rewarding/utils.py:61-62 | a sent reward row of the granted type is appended for each positive pack, and only rewards, balances and winners change |
| Ledger.InactiveOperatorChangesNothing | rewarding/utils.py:38-43 | without an active operator profile the call returns (None, 0) and writes nothing |
| Ledger.PackGrantEffect | rewarding/utils.py:51-127 | join, referral and payment grants return the summed units, credit every coupon by its pack, update summary, scores and winners, and set the free or payment tier |
| Ledger.ManualGrantEffect | rewarding/utils.py:128-143 | a manual grant credits the given count, records one sent manual reward, adds count × coefficient to the score, sets the manual tier, and records a winner iff the heap is reached |
| Ledger.CreditRow | rewarding/utils.py:58-68 | crediting one pack updates the tables, summary and profile exactly as the specification step does |
| Ledger.GrantCoupon | rewarding/utils.py:52-70 | one coupon of the loop: a positive pack is credited and listed exactly as the specification step does, a missing or empty pack changes nothing |
| Ledger.GrantLoop | rewarding/utils.py:52-70 | the coupon loop leaves the tables, summary, profile, total and pack list equal to the specification fold |
| Ledger.RewardMember | rewarding/utils.py:16-146 | `reward_member` returns and stores exactly what its specification function gives |
| Ledger.GrantRequest | rewarding/utils.py:44-143 | the dispatch on the reward type leaves the tables, summary, profile, total and pack list of the specified grant, with the tier of that type |
| Ledger.LastReward | rewarding/utils.py:149-153 | the latest reward of the member on the service, or none iff the member has no reward there |
| Ledger.ThresholdScan | rewarding/utils.py:178-182 | the scan answers true iff some cumulated count of the member reaches its coupon's heap |
| Ledger.UseCoupon | rewarding/utils.py:156-183 | `use_coupon` returns and stores exactly what its specification function gives |
| Ledger.UseCouponEffect | rewarding/utils.py:164-183 | a failure changes nothing; no such balance is reported iff the member has no row, insufficient units iff the row is below the heap, success iff it reaches the heap; success removes one heap, records the use and recomputes the threshold flag, and changes no other table, balance row or summary |
| Ledger.UseCouponExample | rewarding/tests_utils.py:79-84 | a heap of 100 used from 125 units succeeds and leaves 25 |
| Ledger.DebitDonor | rewarding/utils.py:196-212 | the donor side of a donation stores what its specification gives |
| Ledger.CreditReceiver | rewarding/utils.py:214-223 | the receiver side of a donation stores what its specification gives |
| Ledger.DonateCoupon | rewarding/utils.py:186-223 | `donate_coupon` returns and stores exactly what its specification function gives |
| Ledger.DonationMovesUnits | rewarding/utils.py:192-223 | a failure changes nothing; success moves exactly `count` units from donor to receiver, keeps their sum, moves the summary counts, sets the receiver's flag exactly when it was set or the new balance reaches the heap, creates the receiver's profile iff it was missing, records the donation use, and changes no other table or summary |
| Ledger.DonationKeepsTheRest | rewarding/utils.py:204-223 | an accepted donation changes only profiles, balances, uses and summaries; both members' summaries exist afterwards, every other summary is untouched, and the receiver's profile is `get_or_create`d |
| Ledger.DonorFlagAfterDonation | rewarding/utils.py:204-210 | after a donation the donor's flag equals "some balance of the donor reaches its heap size" |
| Ledger.DonationOutcome | rewarding/utils.py:192-198 | a receiver outside the community is refused, then a donor without a balance row, then a balance below the count; the donation is done exactly when none of these holds |
| Ledger.SelfDonationKeepsBalance | rewarding/utils.py:196-217 | donating to oneself leaves one's balance unchanged |
| Ledger.DonationExample | rewarding/tests_utils.py:94-102 | with 30 units, donating 40 fails with no change and donating 10 leaves 20 |
| Quota.PyDiv | rewarding/reward_crons.py:58 | Python floor division: the quotient q satisfies q·b <= a < q·b + b |
| Quota.DailyTarget | rewarding/reward_crons.py:58 | N is the audience size divided by 30, rounded down, and is non-negative |
| Quota.WinnersToday | rewarding/reward_crons.py:91-93 | the winners drawn today are between 0 and n, and are the quota left divided by the remaining days, capped at n |
| Quota.ExhaustedQuotaHasNoWinner | rewarding/reward_crons.py:91-93 | once the month's winners reach the quota, nobody wins today |
| Quota.DaysInMonth | rewarding/reward_crons.py:147-152 | a month has 28 to 31 days, and February has 29 iff the year is leap |
| Quota.NextMonth | rewarding/reward_crons.py:149-150 | the month after m is m+1 in the same year, and after December comes January of the next year |
| Quota.SecondsToNextMonth | rewarding/reward_crons.py:151-152 | the time to the first of next month is positive and at most the month's length |
| Quota.RemainingDaysAsWritten | rewarding/reward_crons.py:147-152 | the code as written yields a value only outside November, and then agrees with the true next month |
| Quota.NextMonthAsWrittenAgrees | rewarding/reward_crons.py:149-150 | outside November, `(month + 1) % 12` with the year rule gives the true next month |
| Quota.NovemberHasNoNextMonth | rewarding/reward_crons.py:149 | in November the code builds month 0, which `datetime` refuses |
| Quota.LastDayGivesZeroDays | rewarding/reward_crons.py:151-152 | on the last day of a month after midnight the code returns 0 days, which the division at line 92 then fails on |
| Quota.RemainingDaysInMonth | rewarding/reward_crons.py:147-152 | the corrected count of days left: between 1 and the month's length, and the whole days to the first of the next month whenever that is at least 1 |
| Quota.RemainingDaysCorrection | rewarding/reward_crons.py:151-152 | outside November the code's count is the corrected count, except on the last day of a month after midnight, where the code gives 0 and the corrected count is 1 |
| Chance.Bonus | rewarding/reward_crons.py:105 | `randrange(3, 20, 3)` yields a multiple of 3 from 3 to 18 |
| Chance.BonusReachesEveryStep | rewarding/reward_crons.py:105 | every multiple of 3 from 3 to 18 is drawn by some seed |
| Chance.RandInt | rewarding/reward_crons.py:138 | `randint(lo, hi)` yields a value in [lo, hi] |
| Chance.RandIntReachesEveryValue | rewarding/reward_crons.py:138 | every value in [lo, hi] is drawn by some seed |
| Chance.Choice | rewarding/reward_crons.py:126 | `random.choice` yields an element of the list |
| Chance.Remove | rewarding/reward_crons.py:93 | a draw without replacement shortens the pool by one |
| Chance.RemoveTakesOne | rewarding/reward_crons.py:93 | removing a drawn element takes exactly that element out of the pool |
| Chance.Shuffle | rewarding/reward_crons.py:117 | `random.shuffle` yields a permutation of the list |
| Chance.Range | rewarding/reward_crons.py:88 | `range(n)` lists 0 … n-1 |
| Chance.RemoveKeepsDistinct | rewarding/reward_crons.py:93 | drawing from a list of distinct values leaves distinct values without the drawn one |
| Chance.SampleWithinPool | rewarding/reward_crons.py:93 | every sampled index comes from the pool |
| Chance.RangeDistinct | rewarding/reward_crons.py:88 | `range(n)` holds n distinct values in [0, n) |
| Chance.SampleStep | rewarding/reward_crons.py:93 | each draw adds exactly one new index to the sample |
| Chance.SampleSize | rewarding/reward_crons.py:93 | a sample of k from k or more distinct values has exactly k elements |
| Chance.SampleOfRange | rewarding/reward_crons.py:88-93 | the winning indexes of a coupon are exactly k distinct slots in [0, n) |
| Selection.KeyLeTotal | rewarding/reward_crons.py:96 | any two profiles are ordered by (reward score, coupon score, last reward date) |
| Selection.KeyLeTransitive | rewarding/reward_crons.py:96 | that order is transitive |
| Selection.Insert | rewarding/reward_crons.py:96 | insertion adds exactly one entry to the list |
| Selection.InsertSorted | rewarding/reward_crons.py:96 | insertion into a sorted list keeps it sorted |
| Selection.InsertBound | rewarding/reward_crons.py:96 | a key below the inserted entry and below every listed entry stays below every entry after insertion |
| Selection.SortByKey | rewarding/reward_crons.py:96 | `order_by` returns a permutation of the rows |
| Selection.SortByKeySorted | rewarding/reward_crons.py:96 | `order_by` returns the rows in key order |
| Selection.Eligible | rewarding/reward_crons.py:96 | the filter keeps exactly the community's profiles last rewarded at or before the cutoff |
| Selection.SortedSplit | rewarding/reward_crons.py:96 | in a sorted list, every entry of the first n precedes every entry after them |
| Selection.SortedPrefixLowest | rewarding/reward_crons.py:96 | the slice `[:n]` of the sorted rows has min(n, rows) entries, is sorted, is drawn from the rows, and ranks at or below every row left out |
| Selection.CandidatesAreLowestKeys | rewarding/reward_crons.py:96 | the backfill takes min(n, eligible) eligible members, sorted, and none left out ranks below one taken |
| Selection.RecentlyRewardedIsNotCandidate | rewarding/reward_crons.py:86 | a member rewarded within the last two days is never a backfill candidate (also line 96) |
| RewardCrons.FindPrepared | rewarding/reward_crons.py:107-108 | the lookup finds a prepared row of that member, coupon and type, or none exists |
| RewardCrons.PreparedSumUpdate | rewarding/reward_crons.py:107-110 | rewriting one prepared row changes the prepared total by that row's difference |
| RewardCrons.AddToPreparedAccumulates | rewarding/reward_crons.py:107-110 | `get_or_create` then `count += n` adds n to the prepared total, adds at most one row and leaves other rows alone |
| RewardCrons.HitCount | rewarding/reward_crons.py:101-106 | a winner gets at least 3 units, enough to pass the heap by 3, and at most 18 past the heap |
| RewardCrons.HitCountBonus | rewarding/reward_crons.py:102-106 | a member below the heap ends exactly `bonus` units past it |
| RewardCrons.OfferCountBounds | rewarding/reward_crons.py:135-138 | the free offer, weighted by the coefficient, stays within MAX_FREE and 5 short of the heap, and reaches MIN_FREE or 1 when room allows |
| RewardCrons.OfferNeverCompletesHeap | rewarding/reward_crons.py:135-138 | a free offer never lifts a balance beyond 5 short of the heap |
| RewardCrons.OfferCanBeNegative | rewarding/reward_crons.py:135-138 | a balance above the heap gives a negative offer (heap 10, balance 20: -15) |
| RewardCrons.JoinPrepEffect | rewarding/reward_crons.py:70-80 | a never-rewarded member gets one prepared join reward per positive pack and the weighted units added to the coupon score |
| RewardCrons.UnitsSumNonNegative | rewarding/reward_crons.py:73 | only positive pack counts are granted, so their sum is non-negative |
| RewardCrons.NeverTierEffect | rewarding/reward_crons.py:61-82 | at most N members get join rewards, every community member ends in the free tier, and other profiles are untouched |
| RewardCrons.NeverStepEffect | rewarding/reward_crons.py:65-82 | one member: the never-rewarded count grows by at most one and stays within N, the member ends in the free tier, no other profile changes, and only prepared rewards are appended |
| RewardCrons.PermutedPositions | rewarding/reward_crons.py:94 | a shuffle of valid coupon positions holds valid positions (also line 117) |
| RewardCrons.FirstHit | rewarding/reward_crons.py:99-100 | the first coupon whose winning indexes hold the slot, or none holds it |
| RewardCrons.Touch | rewarding/reward_crons.py:101 | `get_or_create` of a cumulated row keeps every balance and only adds that row (also line 120) |
| RewardCrons.ShuffledOrder | rewarding/reward_crons.py:117 | the shuffled order is a permutation of the coupon positions |
| RewardCrons.OfferStepEffect | rewarding/reward_crons.py:119-124 | a coupon is offered iff the member's balance is below CRITICAL_LIMIT; balances never change |
| RewardCrons.OfferLoopFrame | rewarding/reward_crons.py:117-124 | the shuffled loop touches only this member's rows and keeps the reward tier |
| RewardCrons.OfferLoopOffers | rewarding/reward_crons.py:118-123 | something is offered iff some coupon's balance is below CRITICAL_LIMIT |
| RewardCrons.SomeBelowSnoc | rewarding/reward_crons.py:119-123 | some coupon of the list is below CRITICAL_LIMIT iff one before the last is, or the last is |
| RewardCrons.WinningSlotEffect | rewarding/reward_crons.py:99-115 | the first winning coupon of the slot counts one more winner and its prepared free reward grows by the hit count; the score follows |
| RewardCrons.NoCouponNoOffer | rewarding/reward_crons.py:116-126 | with no coupon the offer loop visits nothing and offers nothing, so the forced choice would draw from an empty list; the model only sets the FREE tier |
| RewardCrons.FreeOfferEffect | rewarding/reward_crons.py:116-130 | a slot that wins nothing changes no coupon and no balance, and ends in the free tier |
| RewardCrons.FreeOfferIffBelowLimit | rewarding/reward_crons.py:116-128 | in the losing branch a coupon is offered without the forced choice iff some balance is below CRITICAL_LIMIT |
| RewardCrons.PositionIn | rewarding/reward_crons.py:94 | every coupon position has a place in the shuffled list (also line 117) |
| RewardCrons.BackfillLoop | rewarding/reward_crons.py:96-131 | the backfill loop keeps its working state ready and the coupon list's length |
| RewardCrons.BackfillMemberReady | rewarding/reward_crons.py:96-131 | one backfilled member keeps the working state ready |
| RewardCrons.WinningStepReady | rewarding/reward_crons.py:100-115 | the winning grant keeps the coupon table consistent, every coefficient at least 1 and the list length |
| RewardCrons.BackfillMemberFrame | rewarding/reward_crons.py:129-130 | a backfilled member ends in the free tier and no other profile changes |
| RewardCrons.BackfillKeepsFree | rewarding/reward_crons.py:96-131 | after the backfill every candidate is in the free tier and no free profile leaves it |
| RewardCrons.WinningIndexes | rewarding/reward_crons.py:90-93 | one set of winning indexes per coupon |
| RewardCrons.WinningIndexesAreSlots | rewarding/reward_crons.py:91-93 | each coupon's winning indexes number WinnersToday and lie in [0, n) |
| RewardCrons.NeverDone | rewarding/reward_crons.py:61-82 | the never-rewarded pass changes only rewards and profiles |
| RewardCrons.BackfillSizeBounds | rewarding/reward_crons.py:85 | the backfill size n lies between 0 and N |
| RewardCrons.BackfillRun | rewarding/reward_crons.py:85-131 | the backfill keeps the tables consistent |
| RewardCrons.BackfillRunKeepsFree | rewarding/reward_crons.py:96-131 | the backfill never takes a profile out of the free tier |
| RewardCrons.PrepareService | rewarding/reward_crons.py:58-131 | one operator's run keeps the tables consistent |
| RewardCrons.PrepareServiceEndsFree | rewarding/reward_crons.py:61-82 | after one operator's run every community member is in the free tier |
| RewardCrons.PrepareAll | rewarding/reward_crons.py:52-131 | the cron keeps the tables consistent and the operators unchanged |
| RewardCrons.PrepareStep | rewarding/reward_crons.py:57 | an operator whose subscription has expired is skipped; any step keeps the tables consistent and the operators unchanged |
| RewardCrons.PrepareStepEndsFree | rewarding/reward_crons.py:57-82 | one operator's preparation keeps every free-tier profile free, and leaves every member of an unexpired operator's community in the free tier |
| RewardCrons.PrepareAllEndsFree | rewarding/reward_crons.py:57-82 | after the cron every member of every unexpired operator's community is in the free tier |
| RewardCrons.AccumulatePrepared | rewarding/reward_crons.py:107-110 | the reward table becomes the accumulated prepared table |
| RewardCrons.OfferFreeCoupon | rewarding/reward_crons.py:134-144 | `offer_free_coupon` stores and returns what its specification gives |
| RewardCrons.PrepareJoinRewards | rewarding/reward_crons.py:70-80 | the join loop stores the rewards and returns the profile of the specification fold, and nothing else changes |
| RewardCrons.RewardNeverRewarded | rewarding/reward_crons.py:61-82 | the member loop stores and counts what the specification fold gives |
| RewardCrons.VisitNeverRewarded | rewarding/reward_crons.py:65-82 | one member of that loop stores and counts what the specification step gives |
| RewardCrons.OfferShuffled | rewarding/reward_crons.py:117-124 | the shuffled loop stores and returns what the specification gives; `all_coupon_critical` is its negation |
| RewardCrons.OfferOne | rewarding/reward_crons.py:119-124 | one coupon of the shuffled list stores and returns what the specification step gives |
| RewardCrons.FindWinningCoupon | rewarding/reward_crons.py:99-100 | the loop returns the first coupon winning the slot, or the list length iff none does |
| RewardCrons.GrantWinner | rewarding/reward_crons.py:100-115 | the winning branch stores what its specification gives |
| RewardCrons.TopUp | rewarding/reward_crons.py:101-110 | the hit count is computed from the cumulated balance and added to the prepared free reward |
| RewardCrons.OfferLoser | rewarding/reward_crons.py:116-130 | the losing branch stores what its specification gives |
| RewardCrons.RewardCandidates | rewarding/reward_crons.py:96-131 | the backfill loop stores what the specification fold gives |
| RewardCrons.BackfillCandidate | rewarding/reward_crons.py:97-130 | one candidate gets the winning grant on the first coupon holding its slot, or else the free offers, as the specification step gives |
| RewardCrons.DrawWinningIndexes | rewarding/reward_crons.py:90-93 | the coupon loop draws exactly the specified winning indexes |
| RewardCrons.PrepareRewardsFor | rewarding/reward_crons.py:58-131 | one operator's run stores what its specification gives |
| RewardCrons.PrepareRewards | rewarding/reward_crons.py:52-131 | `prepare_rewards` stores what its specification gives, using the corrected day count |
| RewardCrons.PrepareOne | rewarding/reward_crons.py:57-131 | one operator of the loop is prepared iff its subscription has not expired |
| SendGate.LatestPrepared | rewarding/reward_crons.py:205 | the member's latest prepared reward, or none iff there is none |
| SendGate.PreparedCountMeaning | rewarding/reward_crons.py:203-205 | the prepared count is positive iff a latest prepared reward exists, and with one prepared reward it is that one |
| SendGate.GateMeaning | rewarding/reward_crons.py:207 | two or more prepared rewards always pass; a single one passes iff it is at least MAX_NRM_DAYS old; none never passes |
| SendGate.PreparedRows | rewarding/reward_crons.py:163 | exactly the rows the per-coupon query reads |
| SendGate.BookEffect | rewarding/reward_crons.py:165-173 | booking adds the reward count to the balance and the summary, and records a winner and sets the flag iff the heap is strictly exceeded |
| SendGate.TwoPreparedRewardsAbort | rewarding/reward_crons.py:163 | two prepared rewards on one coupon make `get` raise, which aborts the grouping |
| SendGate.GroupCouponsFrame | rewarding/reward_crons.py:161-180 | grouping one service touches only this member's balances and summaries |
| SendGate.GroupServicesFrame | rewarding/reward_crons.py:157-183 | grouping all services touches only this member's balances and summaries |
| SendGate.GroupCouponsListSound | rewarding/reward_crons.py:163-164 | every reward listed is a prepared reward of the member |
| SendGate.GroupCouponsListComplete | rewarding/reward_crons.py:161-164 | if grouping completes, every prepared reward of the member on those coupons is listed |
| SendGate.GroupCouponComplete | rewarding/reward_crons.py:163-164 | a coupon step that does not abort keeps the list and lists the member's prepared reward of that coupon |
| SendGate.PreparedRewards | rewarding/reward_crons.py:199 | the queue holds exactly the prepared rewards |
| SendGate.MarkSent | rewarding/reward_crons.py:239-240 | marking keeps the number of rewards |
| SendGate.MarkSentEffect | rewarding/reward_crons.py:239-240 | a reward becomes sent iff it was sent or was prepared for a selected member, and nothing else changes |
| SendGate.GroupKeepsRewards | rewarding/reward_crons.py:155-184 | grouping changes no reward row and no other member's balance |
| SendGate.SendScanSelects | rewarding/reward_crons.py:199-209 | the members selected are exactly those with a prepared reward that pass the gate |
| SendGate.SendFreeRewardsEffect | rewarding/reward_crons.py:187-240 | after the cron a reward is sent iff it was sent or its member passed the gate; an aborted run marks nothing |
| SendGate.GroupServiceCoupons | rewarding/reward_crons.py:161-180 | the coupon loop stores and returns what its specification gives |
| SendGate.GroupOneCoupon | rewarding/reward_crons.py:162-180 | one coupon stores and lists what the specification step gives |
| SendGate.BookReward | rewarding/reward_crons.py:165-173 | booking one reward stores what its specification gives |
| SendGate.GroupRewards | rewarding/reward_crons.py:155-184 | `group_rewards_by_service` stores and returns what its specification gives |
| SendGate.GroupOneService | rewarding/reward_crons.py:157-183 | one service stores and groups what the specification step gives, and stops the run when it has no operator profile |
| SendGate.GroupCouponsGroupedIrrelevant | rewarding/reward_crons.py:183 | the grouped map built so far does not affect one service's grouping |
| SendGate.ScanPrepared | rewarding/reward_crons.py:198-209 | the scan stores and selects what its specification gives |
| SendGate.SendOne | rewarding/reward_crons.py:199-209 | one prepared reward of the queue selects and groups its member as the specification step gives |
| SendGate.MarkSelectedSent | rewarding/reward_crons.py:239-240 | the reward table becomes the marked table |
| SendGate.SendFree | rewarding/reward_crons.py:187-240 | `send_free_rewards` stores what its specification gives |
| Billing.Today | rewarding/billing_crons.py:59-60 | the date of an instant is its day number |
| Billing.IssueEffect | rewarding/billing_crons.py:59-113 | an invoice is issued iff cost > 0, the plan is not free and expiry is `gap` days ahead; it is for cost × months, paid by wallet iff the balance covers it, PAID when wallet-paid and PENDING otherwise, and reminded once iff mailed and not wallet-paid |
| Billing.IssueAllEffect | rewarding/billing_crons.py:58-79 | `send_invoices` appends one invoice per issued subscription, PAID when the wallet paid it and PENDING otherwise, counts them and totals their amounts |
| Billing.IssueStepEffect | rewarding/billing_crons.py:59-79 | one subscription either leaves the run untouched or appends exactly one invoice of that store's subscriptions, PAID when wallet-paid and PENDING otherwise, numbered by its position, counted once and added to the total |
| Billing.IssueAllAppends | rewarding/billing_crons.py:58-79 | the loop only appends: earlier invoices are kept and at most one invoice is added per subscription |
| Billing.IssueAllTally | rewarding/billing_crons.py:58-79 | the returned count is the number of appended invoices and the total is the sum of their amounts |
| Billing.IssueAllNew | rewarding/billing_crons.py:58-79 | every appended invoice is PAID when wallet-paid and PENDING otherwise, belongs to a known subscription and is numbered by its position |
| Billing.VisitMovesForward | rewarding/billing_crons.py:145-272 | no pass moves an invoice backwards; only the overdue pass makes pending overdue and only suspension makes overdue exceeded |
| Billing.ReminderCounting | rewarding/billing_crons.py:145-178 | a reminder is counted only `reminder_delay` days after the last one, and the reminder count grows iff the mail goes out |
| Billing.UnmailedInvoiceIsNeverReminded | rewarding/billing_crons.py:107-113 | an invoice whose first mail was not sent, or was paid by wallet, is never reminded (also line 145) |
| Billing.OverdueNoticesCapped | rewarding/billing_crons.py:199-237 | at most 3 overdue notices are counted, one per visit, and only when the mail goes out |
| Billing.FirstNoticeMakesOverdue | rewarding/billing_crons.py:206-213 | a pending invoice past its due date with no notice yet becomes overdue and is counted |
| Billing.SuspensionNeedsOverdue | rewarding/billing_crons.py:259-266 | an invoice ends exceeded iff it was, or it was overdue and due at least `tolerance` days ago |
| Billing.PaidIsFinal | rewarding/billing_crons.py:145-260 | no reminder, overdue or suspension pass changes or counts a PAID invoice, as none of their queries (lines 145, 199-200 and 260) selects one |
| Billing.WalletPaidInvoiceIsLeftAlone | rewarding/billing_crons.py:83-86 | an invoice the wallet paid at issue is never reminded, made overdue or suspended; one it did not pay is issued pending |
| Billing.VisitAll | rewarding/billing_crons.py:147 | each pass visits every invoice once, in place (also lines 202 and 262) |
| Billing.Deactivate | rewarding/billing_crons.py:270-272 | suspension keeps the set of subscriptions |
| Billing.DeactivateEffect | rewarding/billing_crons.py:262-272 | a subscription stays active iff it was active and none of its invoices was suspended, and nothing else about it changes |
| Billing.InvoiceStore.constructor | rewarding/billing_crons.py:42 | a store starts with the given subscriptions and no invoice |
| Billing.SendInvoices | rewarding/billing_crons.py:45-128 | the cron appends exactly the specified invoices, a wallet-paid one PAID and the others PENDING, and returns their count and total |
| Billing.SendInvoiceReminders | rewarding/billing_crons.py:131-182 | the cron updates every invoice as the reminder pass specifies and returns the tally |
| Billing.RemindAll | rewarding/billing_crons.py:147-178 | the reminder loop yields the invoices of the reminder pass and its count and total, and keeps every subscription reference |
| Billing.RemindInvoice | rewarding/billing_crons.py:148-178 | one invoice: counted and saved as the reminder pass specifies |
| Billing.SendInvoiceOverdueNotices | rewarding/billing_crons.py:185-241 | the cron updates every invoice as the overdue pass specifies and returns the tally |
| Billing.NoticeAll | rewarding/billing_crons.py:202-237 | the overdue loop yields the invoices of the overdue pass and its count and total, and keeps every subscription reference |
| Billing.NoticeOverdue | rewarding/billing_crons.py:203-237 | one invoice: counted and saved as the overdue pass specifies |
| Billing.SuspendCustomersServices | rewarding/billing_crons.py:244-300 | the cron marks invoices exceeded and deactivates their subscriptions as specified |
| Billing.SuspendAll | rewarding/billing_crons.py:262-275 | the suspension loop yields the invoices of the suspension pass, its count and total, and the subscriptions deactivated as specified |
| Billing.SuspendInvoice | rewarding/billing_crons.py:263-269 | one invoice: marked EXCEEDED as the suspension pass specifies |
| Views.OtherPacks | rewarding/views.py:142 | deleting a service's packs keeps exactly the packs of other services, for join and payment packs alike (also line 152) |
| Views.OtherJoinPacks | rewarding/views.py:142 | after the delete the join packs are exactly those of other services |
| Views.OtherPaymentPacks | rewarding/views.py:152 | after the delete the payment packs are exactly those of other services |
| Views.PaymentRowsMeaning | rewarding/views.py:170-178 | one payment pack per (interval, reward) pair, carrying its floor, ceiling, coupon and count, and no other |
| Views.KnownPrefix | rewarding/views.py:147 | the rows written before the first unknown coupon id (also line 175) |
| Views.KnownPrefixUnique | rewarding/views.py:147 | that prefix is the only one with those two properties (also line 175) |
| Views.CouponIds | rewarding/views.py:146 | the coupon ids of a list of packs, in order, for join and payment rows alike (also line 174) |
| Views.JoinIds | rewarding/views.py:146 | the coupon ids of the join rows, in order |
| Views.PaymentIds | rewarding/views.py:174 | the coupon ids of the payment rows, in order |
| Views.InsertByFloor | rewarding/views.py:156-157 | insertion adds exactly one interval |
| Views.InsertByFloorSorted | rewarding/views.py:156-157 | insertion keeps the intervals sorted by floor |
| Views.SortByFloor | rewarding/views.py:155-157 | the sort returns a permutation of the intervals |
| Views.SortByFloorSorted | rewarding/views.py:155-157 | the sort returns the intervals in floor order |
| Views.FirstOverlapFrom | rewarding/views.py:158-162 | the first i whose ceiling reaches the next floor, or none |
| Views.NoOverlapMeansDisjoint | rewarding/views.py:158-162 | sorted intervals with no adjacent overlap are pairwise disjoint |
| Views.CreatedRowsMeaning | rewarding/views.py:170-178 | the rows created are all payment rows when every coupon exists, or else their prefix up to the first unknown coupon, which is reported |
| Views.CreatedRowsStep | rewarding/views.py:170-178 | one more interval appends its rows up to the first unknown coupon |
| Views.CreatedRowsStopped | rewarding/views.py:175 | after an unknown coupon no further interval is created |
| Views.SavePaymentPacksFrame | rewarding/views.py:152-179 | the payment half changes only the payment packs and keeps other services' ones |
| Views.SavePacksFrame | rewarding/views.py:137-179 | only the pack tables change; other services' packs stay; this service's join packs are the submitted ones |
| Views.SavePacksOverlap | rewarding/views.py:152-167 | the reply is an overlap error iff sorted intervals overlap; then no payment pack of the service is left and the first overlapping pair is named |
| Views.PaymentOverlap | rewarding/views.py:152-167 | the payment part replies an overlap error iff sorted intervals overlap, naming the first overlapping pair, and then no payment pack of the service is left |
| Views.SavePacksSavedState | rewarding/views.py:142-178 | on success the tables hold the other services' packs followed by the submitted rows |
| Views.SortedPaymentRows | rewarding/views.py:155-178 | sorting the intervals does not change which payment packs are created |
| Views.SavePacksSaved | rewarding/views.py:137-179 | on success the join packs are the submitted ones, the intervals are disjoint and the service's payment packs are exactly the submitted (interval, reward) pairs |
| Views.FindOverlap | rewarding/views.py:158-162 | the loop reports an overlap iff there is one, at the first overlapping index |
| Views.SaveRewardsPacks | rewarding/views.py:137-179 | `save_rewards_packs` stores and replies what its specification gives |
| Views.ReplaceJoinPacks | rewarding/views.py:142-149 | the join part stores what its specification gives |
| Views.ReplacePaymentPacks | rewarding/views.py:152-179 | the payment part stores and replies what its specification gives |
| Views.CreatePaymentPacks | rewarding/views.py:170-179 | the creation loop appends the created rows and replies "no such coupon" iff one is missing |
| Views.CollectPaymentPacks | rewarding/views.py:170-178 | the interval loop collects the rows and the first unknown coupon exactly as the specification gives |
| Views.CreateIntervalPacks | rewarding/views.py:173-178 | one interval's loop creates as many rows as there are known coupon ids before the first unknown one |
| Views.ChangeBillingEffect | rewarding/views.py:127-131 | the plan becomes the chosen one; sms and auto-renew change only when the plan changes; repeating it changes nothing |
| Views.SaveBilling | rewarding/views.py:120-135 | the profile is saved iff the plan and the profile exist, and then only it changes |
| Views.Split | rewarding/views.py:315 | `split('.')` yields at least one token |
| Views.RemoveDots | rewarding/views.py:317 | joining the tokens leaves no dot |
| Views.AfterLastDot | rewarding/views.py:315-316 | the position after the last dot, with no dot after it |
| Views.SplitSingle | rewarding/views.py:315 | the split yields one token iff the name holds no dot |
| Views.SplitLast | rewarding/views.py:316 | the last token is the text after the last dot |
| Views.SplitInit | rewarding/views.py:317 | the joined other tokens are the text before the last dot without its dots |
| Views.UpdateFilename | rewarding/views.py:314-319 | the new name is the slug of the stem without dots, a dot, and the extension after the last dot |
| Views.UpdateFilenameWithoutDot | rewarding/views.py:314-319 | a name without a dot becomes `slugify('') + '.' + name` |
| Views.NatToString | rewarding/views.py:346 | `str(k)` has at least one digit |
| Views.NatToStringInjective | rewarding/views.py:346 | different numbers print differently |
| Views.NumberedInjective | rewarding/views.py:346 | different suffixes give different file names |
| Views.NumberedUpToSize | rewarding/views.py:341-349 | there are k-1 numbered names below k, so the search ends |
| Views.UniqueFilename | rewarding/views.py:335-351 | the SEO name is kept when free; otherwise the smallest suffix from 1 whose numbered name is free is chosen |
| Admin.CreationAlwaysRefused | rewarding/admin.py:58-60 | creating a profile from the admin is refused and writes nothing |
| Admin.GuardedEditNeedsSuperuser | rewarding/admin.py:62-65 | a non-superuser edit of expiry, monthly cost or state is refused and writes nothing |
| Admin.SuperuserEditSaved | rewarding/admin.py:61-66 | a superuser's edit is saved |
| Admin.UnguardedEditSaved | rewarding/admin.py:61-66 | an edit that leaves the three guarded fields alone is saved for anyone |
| Admin.OthersNeverChangeGuardedFields | rewarding/admin.py:56-66 | any number of non-superuser saves keep every profile's expiry, cost and state, and add no profile |

## Left out

- The Django ORM and the databases (`UMBRELLA` and each service's database) are modelled as one
  `Db` object whose tables are sequences and maps. `get_or_create` and `get` become lookups in
  those tables. A query's order is the table order.
- Mail, SMS, `add_event`, logging, `set_counters` and `increment_history_field` are left out.
  The mail connection and the queued SMS are left out too. Whether a mail was accepted is a
  parameter (`accepted`).
- `import_by_path` and the `BILLING_AFTER_NEW_INVOICE` hook are left out: they call code that is
  not part of this model.
- `get_coupon_summary_list`, `get_join_reward_pack_list` and `get_referral_reward_pack_list` are
  read-only helpers for templates. They are not part of this model.
- views.py page rendering, `render_reward_offer_event`, the image file I/O of `upload_complete`
  and urls.py are left out. Only the decisions these make are modelled: pack replacement, plan
  change, and file names.
- Floats (`monthly_cost`, `raw_monthly_cost`) are modelled as integers.
- The admin runs in one thread; concurrency between crons is not modelled.
- Random draws (`sample`, `randrange`, `randint`, `shuffle`, `choice`) take their outcome from
  nat seeds. So the model covers every outcome, but no probability.
- The clock is one parameter per run. Time differences use floor days.
- `ikwen.billing` (`Invoice`, `pay_with_wallet_balance`, `get_next_invoice_number`,
  `get_billing_cycle_months_count`) is not part of this model:
  - `pay_with_wallet_balance` marks the invoice PAID, recorded with a `walletPaid` flag; the debit of
    the service's wallet balance is not modelled;
  - the invoice number is its position in the invoice list;
  - the billing cycle's month count is a field of the subscription;
  - invoices are created pending with no reminder, as at billing_crons.py:76-77, and become PAID at
    once when the wallet pays them.
- `os.path.splitext` is the `ext` parameter of `UniqueFilename`, and `slugify` is a function
  parameter.
- The `_cmp` comparator at views.py:156 never returns 0. The model keeps submission order for equal
  floors; the source's order for them follows from a comparator that never returns 0.
- `int()` parsing of the JSON values at views.py:148,160,171-176 is not modelled; values arrive as
  integers.
- The plan lookup of `save_billing` is a `plans` set; a missing plan or profile raises in the
  source and is the `false` reply here.
- The exception branch around `subscription.save()` at billing_crons.py:273-275 is not modelled:
  saving always succeeds.
- `RewardCrons.PrepareRewards` requires every operator's audience size to be non-negative, as
  plan sizes are.
- The candidates of the backfill are the service's community members with a profile.
- Mail outcomes and whether a member has an e-mail are parameters.
- Ledger.FirstPack: the join or referral pack of a coupon is the first one stored. When two packs
  name the same service and coupon, the `.get` at utils.py:55 raises `MultipleObjectsReturned` and
  `reward_member` stops part-way; that abort is not modelled. Such duplicates arise when
  `save_rewards_packs` receives one coupon id twice, as `JoinRewardPack` has no uniqueness
  constraint. `Ledger.FirstPaymentPack` likewise takes the first payment pack whose interval holds
  the amount.
- RewardCrons.FreeOfferEffect: with an empty list of approved active coupons the offer loop never
  runs, and `random.choice([])` at reward_crons.py:126 raises `IndexError`. `prepare_rewards` then
  stops, for this operator and all later ones. The model skips the forced offer and only moves the
  member to the FREE tier (`RewardCrons.NoCouponNoOffer`); that abort is not modelled.
- RewardCrons.FreeOffers and RewardCrons.OfferLoser: same gap. On an empty coupon list they skip the
  forced choice where the source raises `IndexError`. `RewardCrons.BackfillCandidate`,
  `RewardCrons.RewardCandidates`, `RewardCrons.PrepareAllEndsFree` and `RewardCrons.PrepareRewards`
  inherit it: they go on past a run that the source aborts.
- Views.SavePaymentPacks: the two `unique_together` keys of `PaymentRewardPack`, (service, coupon,
  floor) and (service, coupon, ceiling) at models.py:296-299, are not enforced. A `reward_list`
  that names one coupon twice makes the source raise `IntegrityError` after the first row is
  saved. The model stores both rows and replies that the packs were saved.
  `Views.SavePacksSaved` and `Views.SaveRewardsPacks` inherit this.
- Admin.SaveModel: an operator profile is identified by its service, which is one-to-one with it.
  admin.py:59 looks the profile up by its primary key, so an edit that changes the profile's
  `service` field is saved by the source. The model instead replies `NoSuchProfile` or stores a
  second entry. Moving a profile to another service is not modelled.

The following are evident defects of the source, and the model follows the evident intent:

- `RewardCrons.NeverTier`: `never_rewarded_count` starts as `[]` at reward_crons.py:61, and the
  code compares it with N and adds 1 to it. The model counts from 0.
- `RewardCrons.PrepareService`: `coupon_list` stays empty at reward_crons.py:89-93, since the
  coupons are never appended. The model uses the approved active coupons of the service.
- `RewardCrons.WinningIndexes`: `random.sample` raises when more winners are due than slots
  exist. The model clamps the count to [0, n].
- `SendGate.SendFreeRewardsEffect`: `sms_text`, `config` and `count` are undefined at
  reward_crons.py:233-247, and the loop unpacks dict keys at line 211. The model leaves out the
  message text and keeps the status update.
- `Ledger.RewardMember`: `Reward.REFERRAL`, `Reward.MANUAL` and `CRProfile.MANUAL_REWARD` are not
  defined in models.py. The model gives the tiers the order join < payment < manual < free.
- `Ledger.UseCouponEffect`: the winner's `collected` flag is set at utils.py:172-177 but never
  saved. The model does not change it.
- The tests pass arguments that do not match the code:
  - tests_reward_crons.py:16 imports `prepare_free_rewards`, but the cron is named `prepare_rewards`;
  - tests_views.py:88-97 sends `rewards` where the code reads `reward_list`;
  - tests_utils.py calls `donate_coupon` without a receiver.

  The model follows the code.
- `RewardCrons.OfferCount`: the offer is modelled as written. It can be negative when the balance
  exceeds heap − 5 (`RewardCrons.OfferCanBeNegative`).
- `SendGate.GroupCoupon`: `Reward.objects.get` with two prepared rewards on one coupon raises.
  The model aborts that run without marking anything sent.

## Findings

| source | as written | input that shows it | evidently intended | confidence | as-written member | corrected member |
|---|---|---|---|---|---|---|
| rewarding/reward_crons.py:149 | `next_month = (now.month + 1) % 12` gives 0 in November, and `datetime(year, 0, 1)` raises | any instant in November | December of the same year | not executed | Quota.NovemberHasNoNextMonth | Quota.NextMonth |
| rewarding/reward_crons.py:151-152 | `(first_of_next_month - now).days` is 0 on the last day of a month after midnight, so the division at line 92 fails | 31 January at 10:00 | the whole days left, but at least 1 | not executed | Quota.LastDayGivesZeroDays | Quota.RemainingDaysInMonth |
