# CastNCatch game economy, modelled in Dafny

This project models the server-side game economy of CastNCatch, a fishing game whose backend is a set of
Firebase Cloud Functions. The economy's state lives in the Realtime Database and in Firestore. Here that state
is one `Database` object (module `Store`) with one field per database path:

- users with their coins, loot boxes and display name;
- timed challenges and their scores;
- friend challenges;
- friend lists and friend requests;
- notifications and device tokens;
- the item catalogue and unlocks;
- per-user statistics.

Every handler is a method that changes only the fields its `modifies` clause names. Each method is proved
against specification functions, and lemmas state what the handlers promise.

The modules follow the source files:

- `Ledger` (`mainFunctions.ts`): the clamped coin credit of `addCoinsAsync`, rank labels, display names.
- `Notifications` (`notificationFunctions.ts`): saving and dismissing notifications, and the bounded device-token list.
- `Ranking` and `TimedChallenges` (`challengeFunctions.ts`, `proTournamentFunctions.ts`):
  - hourly challenges and pro tournaments share one model, parameterised by an `Engine`;
  - it covers creation, score submission, the expiry sweep and settlement;
  - settlement computes the high score floored at 1, a clamped ratio, a rounded reward and ranks n..1.
- `FriendChallenges` (`friendChallengeFunctions.ts`): the two-player duel, from creation through settlement.
- `Friends` (`friendFunctions.ts`): friend lists and friend requests.
- `LootBoxes` (`lootboxFunctions.ts`): buying and opening loot boxes.
- `Stats` (`statsFunctions.ts`): folding a fishing round into cumulative statistics.
- `Admin` (`adminFunctions.ts`): the coin report over all users.
- `Common`, `Decimal`, `Store`: shared values, JavaScript number semantics and number-to-text conversion.

Several JavaScript number semantics are modelled explicitly:

- `Math.round`: `Common.Round`.
- The truncating `%`: `Common.JsRem`.
- `parseInt` on a stored number: `Common.Truncate`.
- `Math.floor(Math.random() * k)`: `Common.RandomIndex`, with the random draw taken as a parameter in [0, 1).

Generated database keys (`push()`, `add()`) come from a counter. `Database.Valid()` states two invariants, which every handler preserves:

- every stored key lies below the counter;
- every balance is non-negative.

Where the code's comments disagree with the code, the model follows the code:

- **Friend-duel payout.** The winner of a friend duel is credited the wager once
  (`friendChallengeFunctions.ts:531`), not twice as the comments at lines 134 and 240 say. In the deducting
  variant, the winner only recovers their own stake (`FriendChallenges.DeductingDuelNet`).

Behaviour worth knowing:

- **Rank order.** Scores are visited in ascending order of the goal metric, and ranks count down from n.
  The highest score therefore gets rank 1 and the "1st" label (`Ranking.TopScorerRankedFirst`).
- **Rank labels.** `getRankString` has no teen exception: 11 becomes "11st" (`Ledger.TeenRanks`).
- **Duel settlement.** Settlement runs for any score list of length two or more. Submission does not check
  that the caller takes part in the duel. A third submission therefore reopens a finished duel and pays it
  again (`FriendChallenges.ThirdSubmissionReopens`, `FriendChallenges.ThirdSubmissionBreaksOneOpen`).
- **Accepting with deduct.** `addCoinsAsync` always returns true, so the "not enough coins to match" answer
  never comes (`FriendChallenges.AcceptFriendChallenge`).
- **Negative wagers.** Nothing rejects a negative wager. The deducting create passes `coins < wager` and
  writes `coins - wager`, so a wager of -1000 adds 1000 coins (`FriendChallenges.NegativeWagerCredits`).
  Accepting with deduct calls `addCoinsAsync` with `-wager`, which credits the recipient in the same way.
- **The pro sweep.** It lists `challenges/proTournaments` but settles from `challenges/proTournament`
  (`TimedChallenges.ProPathsDiffer`, `TimedChallenges.ProSweepRepeats`). Submission and settlement read the
  latter. Both kinds of challenge write scores under the shared `challengesScores/` path.

## Model

| member | source | states |
|---|---|---|
| Common.Round | CastNCatch-firebase/functions/src/challengeFunctions.ts:324 | Math.round gives the integer r with r ≤ x + 0.5 < r + 1 |
| Common.JsRem | CastNCatch-firebase/functions/src/mainFunctions.ts:27 | the remainder takes the dividend's sign: in [0, b) for a ≥ 0, in (−b, 0] for a < 0 |
| Common.Truncate | CastNCatch-firebase/functions/src/statsFunctions.ts:53-56 | parseInt of a stored number written without an exponent is its integer part, truncated toward zero, on both signs |
| Common.RandomIndex | CastNCatch-firebase/functions/src/challengeFunctions.ts:16-17 | floor(r·k) for r in [0, 1) is an index below k, and 0 when k = 0 |
| Common.PickLocation | CastNCatch-firebase/functions/src/challengeFunctions.ts:12-18 | the location is one of the first ten location keys; it is absent exactly when there are no locations |
| Common.PickGoal | CastNCatch-firebase/functions/src/challengeFunctions.ts:20-23 | the goal is Fish exactly for a draw below one half and Weight otherwise |
| Decimal.NatText | CastNCatch-firebase/functions/src/mainFunctions.ts:28-31 | the decimal text of a number is non-empty, all digits, and ends in the digit n % 10 |
| Decimal.IntText | CastNCatch-firebase/functions/src/friendChallengeFunctions.ts:532 | a number's text is its decimal text, with a leading "-" when negative |
| Decimal.ParseNatText | CastNCatch-firebase/functions/src/mainFunctions.ts:28-31 | reading the decimal text back gives the number (round trip) |
| Decimal.NatTextInjective | CastNCatch-firebase/functions/src/mainFunctions.ts:28-31 | distinct ranks have distinct texts |
| Ledger.RankSuffixFollowsLastDigit | CastNCatch-firebase/functions/src/mainFunctions.ts:26-32 | the rank label is the rank's text plus "st"/"nd"/"rd" exactly when its last digit is 1/2/3, else "th" |
| Ledger.RankString | CastNCatch-firebase/functions/src/mainFunctions.ts:26-32 | the label is the rank's decimal text (with a sign when negative) followed by one of "st", "nd", "rd", "th" |
| Ledger.SmallRanks | CastNCatch-firebase/functions/src/mainFunctions.ts:26-32 | the first places and a round rank read 1st, 2nd, 3rd, 4th, 10th |
| Ledger.TeenRanks | CastNCatch-firebase/functions/src/mainFunctions.ts:26-32 | with no teen exception, 11, 12, 13 and 21 read 11st, 12nd, 13rd, 21st |
| Ledger.ClampedSum | CastNCatch-firebase/functions/src/mainFunctions.ts:38-45 | the new balance is b + d when that is non-negative, else 0; it is never negative |
| Ledger.Credit | CastNCatch-firebase/functions/src/mainFunctions.ts:34-46 | addCoinsAsync on the users: the user's balance becomes at least b + d and never negative, the user exists afterwards, and every other user is unchanged |
| Ledger.SetCoins | CastNCatch-firebase/functions/src/friendChallengeFunctions.ts:135-140 | writing a user's coins sets that balance only; the other fields and the other users stay |
| Ledger.CreditEffect | CastNCatch-firebase/functions/src/mainFunctions.ts:35-46 | addCoins sets b + d, or 0 when b + d < 0; only the coins field of that user changes |
| Ledger.CreditAddsExactly | CastNCatch-firebase/functions/src/mainFunctions.ts:38-39 | a non-negative delta on a non-negative balance adds exactly the delta |
| Ledger.CreditKeepsBalancesNonNegative | CastNCatch-firebase/functions/src/mainFunctions.ts:40-44 | after addCoins every stored balance is still non-negative |
| Ledger.CreditsCompose | CastNCatch-firebase/functions/src/mainFunctions.ts:37-46 | two credits with no clamp in the first equal one credit of the sum |
| Ledger.AddCoins | CastNCatch-firebase/functions/src/mainFunctions.ts:34-49 | addCoinsAsync applies the clamped credit and returns true even when it clamped |
| Ledger.DisplayName | CastNCatch-firebase/functions/src/mainFunctions.ts:51-55 | the stored display name, or "Player" when absent |
| Ledger.CoinsKeepDisplayNames | CastNCatch-firebase/functions/src/mainFunctions.ts:35-46 | coin writes never change a display name |
| Notifications.NewNotification | CastNCatch-firebase/functions/src/notificationFunctions.ts:80-86 | a saved notification has the given category, message and data, and is not dismissed |
| Notifications.PushAppends | CastNCatch-firebase/functions/src/notificationFunctions.ts:80-86 | a push under a fresh key adds exactly one entry, after every existing key, for that user only |
| Notifications.NotesOfPush | CastNCatch-firebase/functions/src/notificationFunctions.ts:80 | a push changes the pushed-to user's notifications only |
| Notifications.PushKeepsKeysBelow | CastNCatch-firebase/functions/src/notificationFunctions.ts:80 | a push keeps every stored key below the advanced key counter |
| Notifications.SaveNotification | CastNCatch-firebase/functions/src/notificationFunctions.ts:79-89 | saveNotificationAsync pushes the new record under the next key and keeps keys below the counter |
| Notifications.DismissNotification | CastNCatch-firebase/functions/src/notificationFunctions.ts:26-36 | a missing id is an error and changes nothing; otherwise exactly that entry is removed; the store invariants are kept |
| Notifications.DismissNotifications | CastNCatch-firebase/functions/src/notificationFunctions.ts:60-70 | every listed id is removed from that user's notifications, nothing else changes, and the answer is Success; the store invariants are kept |
| Notifications.AppendToken | CastNCatch-firebase/functions/src/notificationFunctions.ts:158-166 | the includes test, push and front-splice loop give the bounded list, and report whether the token was new |
| Notifications.Registered | CastNCatch-firebase/functions/src/notificationFunctions.ts:158-166 | the stored list always holds the token, and holds nothing but the old tokens and the new one |
| Notifications.RegisteredNewToken | CastNCatch-firebase/functions/src/notificationFunctions.ts:161-166 | a new token ends the list; the list keeps at most 5 entries, the newest of the old list in their order |
| Notifications.RegisteredKnownToken | CastNCatch-firebase/functions/src/notificationFunctions.ts:158-159 | a known token leaves the list unchanged |
| Notifications.RegisteredIdempotent | CastNCatch-firebase/functions/src/notificationFunctions.ts:158-167 | the list then contains the token, and registering it again changes nothing |
| Notifications.RegisteredBounded | CastNCatch-firebase/functions/src/notificationFunctions.ts:161-166 | a list of at most 5 tokens stays within 5 |
| Notifications.SaveRegistrationToken | CastNCatch-firebase/functions/src/notificationFunctions.ts:148-169 | only this user's token list changes, and only when the token is new |
| Ranking.Values | CastNCatch-firebase/functions/src/challengeFunctions.ts:284-288 | the visited scores' goal values, one per score in visiting order |
| Ranking.HighScoreOf | CastNCatch-firebase/functions/src/challengeFunctions.ts:283-289 | the high score is at least 1 and every value; it is 1 or one of the values |
| Ranking.ScanHighScore | CastNCatch-firebase/functions/src/challengeFunctions.ts:283-289 | the forEach scan computes that high score |
| Ranking.Ratio | CastNCatch-firebase/functions/src/challengeFunctions.ts:318-323 | the ratio is clamped to [0, 1] |
| Ranking.Reward | CastNCatch-firebase/functions/src/challengeFunctions.ts:316-324 | a value of 0 or less earns 0, and a value at or above the high score earns exactly maxReward |
| Ranking.ScaledBelow | CastNCatch-firebase/functions/src/challengeFunctions.ts:324 | a ratio in [0, 1] times maxReward lies in [0, maxReward] |
| Ranking.RewardBounds | CastNCatch-firebase/functions/src/challengeFunctions.ts:318-324 | every reward lies in [0, maxReward] |
| Ranking.RewardMonotone | CastNCatch-firebase/functions/src/challengeFunctions.ts:318-324 | a higher value never earns less |
| Ranking.PlanAgainst | CastNCatch-firebase/functions/src/challengeFunctions.ts:291-297 | one payout per visited score |
| Ranking.Plan | CastNCatch-firebase/functions/src/challengeFunctions.ts:283-297 | one payout per visited score, against the scan's high score |
| Ranking.PlanEntries | CastNCatch-firebase/functions/src/challengeFunctions.ts:291-297 | the i-th visited score pays its user the reward of its value at rank n − i, within [0, maxReward] |
| Ranking.RanksArePermutation | CastNCatch-firebase/functions/src/challengeFunctions.ts:291-297 | ranks lie in 1..n and strictly decrease along the visit, so they are a permutation of 1..n |
| Ranking.HigherValueBetterRank | CastNCatch-firebase/functions/src/challengeFunctions.ts:274-297 | in ascending order a strictly higher value gets a strictly better (smaller) rank |
| Ranking.LastIsHighest | CastNCatch-firebase/functions/src/challengeFunctions.ts:274 | the last score of the ascending view holds the highest value |
| Ranking.TopScorerRankedFirst | CastNCatch-firebase/functions/src/challengeFunctions.ts:274-297 | the top scorer is ranked 1 and, with a value of at least 1, earns maxReward |
| Ranking.PlanDistinct | CastNCatch-firebase/functions/src/challengeFunctions.ts:294-297 | each participant is paid exactly once, and only participants are paid |
| Ranking.TotalRewardBound | CastNCatch-firebase/functions/src/challengeFunctions.ts:294-297 | a settlement pays out between 0 and n · maxReward in total |
| Ranking.CreditAllDomain | CastNCatch-firebase/functions/src/challengeFunctions.ts:332 | crediting creates records only for paid users |
| Ranking.CreditAllUnpaid | CastNCatch-firebase/functions/src/challengeFunctions.ts:332 | a user who did not take part keeps the same record |
| Ranking.CreditAllNonNegative | CastNCatch-firebase/functions/src/challengeFunctions.ts:332 | balances stay non-negative through the payouts |
| Ranking.CreditAllEffect | CastNCatch-firebase/functions/src/challengeFunctions.ts:332 | each participant's balance grows by exactly their reward |
| Ranking.RecordRewardsEffect | CastNCatch-firebase/functions/src/challengeFunctions.ts:327-329 | each paid score's coins field holds the amount credited; other scores are untouched |
| Ranking.EveryScorePaid | CastNCatch-firebase/functions/src/challengeFunctions.ts:327-329 | after settlement every score carries a coins field |
| Ranking.RewardNotes | CastNCatch-firebase/functions/src/challengeFunctions.ts:334-338 | one message per payout, naming the reward and the rank label |
| Ranking.NotifyAllKeysBelow | CastNCatch-firebase/functions/src/challengeFunctions.ts:334-338 | the notifications take fresh keys, one per positive reward |
| Ranking.NotifyAllUnpaid | CastNCatch-firebase/functions/src/challengeFunctions.ts:334-338 | users not paid receive no notification |
| Ranking.NotifyAllEffect | CastNCatch-firebase/functions/src/challengeFunctions.ts:334-338 | a participant is notified once exactly when the reward is positive |
| TimedChallenges.ProPathsDiffer | CastNCatch-firebase/functions/src/proTournamentFunctions.ts:152-195 | the pro sweep lists a different path from the one it settles; the hourly sweep uses one path |
| TimedChallenges.EndOfDay | CastNCatch-firebase/functions/src/challengeFunctions.ts:31-32 | setHours(23, 59, 59) gives a later time on the same day, keeping the milliseconds |
| TimedChallenges.EndOfDayBounds | CastNCatch-firebase/functions/src/challengeFunctions.ts:31-32 | the end-of-day arithmetic stays in the same day and keeps the milliseconds |
| TimedChallenges.NewChallenge | CastNCatch-firebase/functions/src/challengeFunctions.ts:9-47 | maxReward is a multiple of 5 in [50, 95]; the location is one of the first ten; it is not completed, with 120 s duration and empty custom text, ending today |
| TimedChallenges.CreateHourlyChallenge | CastNCatch-firebase/functions/src/challengeFunctions.ts:9-49 | the new challenge is pushed under a fresh key of challenges/hourly |
| TimedChallenges.SaveScore | CastNCatch-firebase/functions/src/challengeFunctions.ts:184-214 | checks run in order (unknown, expired, already submitted, unknown user); a failure writes nothing; success writes one score keyed by the user; with the pro engine it is the pro submission (proTournamentFunctions.ts:120-148), reading challenges/proTournament and writing under the shared challengesScores/ |
| TimedChallenges.SubmitTwice | CastNCatch-firebase/functions/src/challengeFunctions.ts:195-211 | after one saved submission the same user's next submission is refused, and a second save never happens |
| TimedChallenges.ExpiredInMembers | CastNCatch-firebase/functions/src/challengeFunctions.ts:234-239 | the filter keeps exactly the listed keys whose endDate is before now |
| TimedChallenges.ExpiredInPrefix | CastNCatch-firebase/functions/src/challengeFunctions.ts:234-250 | the expired keys of a prefix of the listing start the expired keys of the whole listing |
| TimedChallenges.ExpiredInIncreasing | CastNCatch-firebase/functions/src/challengeFunctions.ts:217-239 | the filter keeps the listing's key order |
| TimedChallenges.SelectionSound | CastNCatch-firebase/functions/src/challengeFunctions.ts:233-250 | a run settles at most 2 challenges, all listed, expired and incomplete, in key order; fewer than 2 means no other expired challenge is left |
| TimedChallenges.SelectExpired | CastNCatch-firebase/functions/src/challengeFunctions.ts:233-251 | the loop with its break after 2 picks exactly that selection |
| TimedChallenges.ComputeReward | CastNCatch-firebase/functions/src/challengeFunctions.ts:316-324 | updateScoreAsync's clamps and rounding compute the reward |
| TimedChallenges.UpdateScore | CastNCatch-firebase/functions/src/challengeFunctions.ts:308-344 | writes the reward to the score, credits it, and notifies the user only when it is positive; the pro version (proTournamentFunctions.ts:242-277) differs only in its message |
| TimedChallenges.PayEntry | CastNCatch-firebase/functions/src/challengeFunctions.ts:294-296 | paying the i-th visited score extends the state by that payout |
| TimedChallenges.PayScores | CastNCatch-firebase/functions/src/challengeFunctions.ts:291-299 | after the forEach, balances, score coins and notifications are those of the whole plan, and the store stays valid |
| TimedChallenges.ViewEmpty | CastNCatch-firebase/functions/src/challengeFunctions.ts:274-280 | the ordered view is empty exactly when the challenge has no scores |
| TimedChallenges.MarkCompleted | CastNCatch-firebase/functions/src/challengeFunctions.ts:301-303 | marks one challenge completed and changes nothing else |
| TimedChallenges.AwardCoins | CastNCatch-firebase/functions/src/challengeFunctions.ts:259-306 | an unknown id changes nothing; no scores only marks it completed; otherwise the plan is paid and the challenge marked completed; with the pro engine it is the pro award (proTournamentFunctions.ts:194-239), settling from challenges/proTournament |
| TimedChallenges.SettleNext | CastNCatch-firebase/functions/src/challengeFunctions.ts:240-241 | one award of the sweep extends the set of settled keys |
| TimedChallenges.Sweep | CastNCatch-firebase/functions/src/challengeFunctions.ts:216-257 | the sweep settles exactly the selected keys; only their scores and completion flags change; the pro sweep (proTournamentFunctions.ts:151-191) selects from challenges/proTournaments and settles from challenges/proTournament |
| TimedChallenges.HourlySweepRetires | CastNCatch-firebase/functions/src/challengeFunctions.ts:217-303 | a settled hourly challenge never appears in a later listing of incomplete ones |
| TimedChallenges.ProSweepRepeats | CastNCatch-firebase/functions/src/proTournamentFunctions.ts:152-237 | the pro sweep leaves the listed path as it was, so the next run selects the same keys again |
| FriendChallenges.AddKeepsOneOpen | CastNCatch-firebase/functions/src/friendChallengeFunctions.ts:184-195 | creating only when the pair has nothing open keeps at most one open challenge per ordered pair |
| FriendChallenges.AcceptOrDeleteKeepsOneOpen | CastNCatch-firebase/functions/src/friendChallengeFunctions.ts:245-306 | accepting or deleting a challenge keeps the one-open rule |
| FriendChallenges.SendChallenge | CastNCatch-firebase/functions/src/friendChallengeFunctions.ts:77-97 | adds the challenge under a fresh key and notifies the recipient, naming the challenger |
| FriendChallenges.NewCreateFriendChallenge | CastNCatch-firebase/functions/src/friendChallengeFunctions.ts:54-99 | an open challenge for the pair is refused; otherwise a 120 s challenge, not accepted or completed and with no scores, is stored and the recipient notified |
| FriendChallenges.CreateFriendChallenge | CastNCatch-firebase/functions/src/friendChallengeFunctions.ts:126-181 | the deducting variant also refuses when coins < wager, and otherwise drops the balance by exactly the wager (180 s duration) |
| FriendChallenges.DeductWager | CastNCatch-firebase/functions/src/friendChallengeFunctions.ts:135-140 | the wager is taken exactly when the balance (0 when absent) is at least the wager, leaving balance minus wager; otherwise nothing is written |
| FriendChallenges.NegativeWagerCredits | CastNCatch-firebase/functions/src/friendChallengeFunctions.ts:137-140 | a negative wager always passes the coins test, and the challenger's balance rises by its magnitude |
| FriendChallenges.AcceptFriendChallenge | CastNCatch-firebase/functions/src/friendChallengeFunctions.ts:229-256 | an unknown id or a non-recipient changes nothing; otherwise the deducting variant debits the recipient through addCoins (so "not enough coins" never comes), sets accepted and notifies the challenger |
| FriendChallenges.MatchWager | CastNCatch-firebase/functions/src/friendChallengeFunctions.ts:239-243 | with deduct the recipient's coins go through addCoins with the negated wager, which always answers true; without deduct nothing changes; the display name is kept |
| FriendChallenges.DeclineFriendChallenge | CastNCatch-firebase/functions/src/friendChallengeFunctions.ts:289-312 | an unknown id or a non-recipient changes nothing; otherwise the wager goes back to the challenger only with deduct, the challenge is deleted and the challenger notified |
| FriendChallenges.ViewFriendChallenge | CastNCatch-firebase/functions/src/friendChallengeFunctions.ts:330-340 | a challenge is shown exactly to its challenger and recipient |
| FriendChallenges.DuelOutcomeDecided | CastNCatch-firebase/functions/src/friendChallengeFunctions.ts:498-518 | a draw exactly on equal values; otherwise the strictly greater value wins; only scores[0] and scores[1] matter |
| FriendChallenges.DuelOutcome | CastNCatch-firebase/functions/src/friendChallengeFunctions.ts:502-520 | a draw exactly when the two first values are equal; the strictly greater of the two wins against the other |
| FriendChallenges.DuelCredits | CastNCatch-firebase/functions/src/friendChallengeFunctions.ts:521-531 | only the two players' balances change, no user is removed, and a draw without deduct changes nothing |
| FriendChallenges.WinnerPaidOnce | CastNCatch-firebase/functions/src/friendChallengeFunctions.ts:531-534 | the winner gains exactly the wager once, and nobody else's record changes |
| FriendChallenges.DrawRefunds | CastNCatch-firebase/functions/src/friendChallengeFunctions.ts:519-528 | on a draw, both players get the wager back only with deduct; without it no balance changes |
| FriendChallenges.DeductingDuelNet | CastNCatch-firebase/functions/src/friendChallengeFunctions.ts:134-140 | over create, accept and win, the winner nets 0 and the loser loses one wager: the stakes are not paid out twice |
| FriendChallenges.WithScore | CastNCatch-firebase/functions/src/friendChallengeFunctions.ts:480-486 | the score is appended, completed becomes "two scores now", and nothing else changes |
| FriendChallenges.ThirdSubmissionReopens | CastNCatch-firebase/functions/src/friendChallengeFunctions.ts:456-488 | a third submission reopens a completed duel, and settlement decides the same duel again |
| FriendChallenges.ThirdSubmissionBreaksOneOpen | CastNCatch-firebase/functions/src/friendChallengeFunctions.ts:483-486 | that reopening can leave two open challenges for one pair |
| FriendChallenges.SettleDuel | CastNCatch-firebase/functions/src/friendChallengeFunctions.ts:493-534 | fewer than two scores changes nothing; otherwise the duel's credits and two notifications are applied |
| FriendChallenges.SubmitFriendScore | CastNCatch-firebase/functions/src/friendChallengeFunctions.ts:448-491 | checks run in order (unknown, not accepted, already submitted, unknown user) and write nothing; otherwise the score is appended and the duel settled on the new list |
| Friends.WithFriend | CastNCatch-firebase/functions/src/friendFunctions.ts:116-127 | the friend is appended only if absent; membership is old list plus friend; no duplicates appear |
| Friends.AddFriend | CastNCatch-firebase/functions/src/friendFunctions.ts:111-128 | returns true exactly when it appended, and writes only then |
| Friends.AddToKnownFriend | CastNCatch-firebase/functions/src/friendFunctions.ts:121-127 | adding a present friend changes nothing; adding twice is adding once |
| Friends.BefriendEffect | CastNCatch-firebase/functions/src/friendFunctions.ts:95-97 | after accepting, each user is in the other's list, no one else's list changes, and no duplicates appear |
| Friends.BefriendKeepsMutual | CastNCatch-firebase/functions/src/friendFunctions.ts:95-97 | accepting keeps friendship symmetric |
| Friends.RequestLifecycle | CastNCatch-firebase/functions/src/friendFunctions.ts:52-65 | a stored request is pending and a dismissed one is not; other requests are unaffected |
| Friends.CreateFriendRequest | CastNCatch-firebase/functions/src/friendFunctions.ts:43-70 | an unknown sender, then a pending request, is refused with no write; otherwise the request is stored with the sender's name and dismissed false |
| Friends.AcceptFriendRequest | CastNCatch-firebase/functions/src/friendFunctions.ts:87-104 | a missing request changes nothing; otherwise both friend lists gain the other and the request is dismissed |
| Friends.DismissFriendRequest | CastNCatch-firebase/functions/src/friendFunctions.ts:145-157 | a missing request changes nothing; otherwise only dismissed becomes true, friend lists untouched |
| LootBoxes.UnownedMembers | CastNCatch-firebase/functions/src/lootboxFunctions.ts:41-49 | an item is an option exactly when it is listed and not owned |
| LootBoxes.FlattenMembers | CastNCatch-firebase/functions/src/lootboxFunctions.ts:43-44 | an item is in the flattened catalogue exactly when some category lists it |
| LootBoxes.BuildOptions | CastNCatch-firebase/functions/src/lootboxFunctions.ts:41-49 | the nested loops collect the unowned items in catalogue order |
| LootBoxes.OptionsEmptyIffAllOwned | CastNCatch-firebase/functions/src/lootboxFunctions.ts:41-51 | there is nothing to offer exactly when every catalogue item is owned |
| LootBoxes.OpenLootBox | CastNCatch-firebase/functions/src/lootboxFunctions.ts:17-69 | an unknown user, no boxes, or owning everything is refused with no change; otherwise an unowned catalogue item is unlocked (not equipped) and the box count drops by exactly 1 |
| LootBoxes.BuyLootBox | CastNCatch-firebase/functions/src/lootboxFunctions.ts:92-117 | an unknown user or coins < 100 is refused with no change; otherwise coins drop by 100, boxes grow by 1, and both are returned |
| LootBoxes.BuyThenOpen | CastNCatch-firebase/functions/src/lootboxFunctions.ts:17-117 | after a purchase from a non-negative box count, opening never answers "no loot boxes": it opens or finds everything owned. When both succeed, the pair costs exactly 100 coins, leaves the box count as it was and unlocks exactly one catalogue item the user lacked; with everything owned the coins are spent and the box kept |
| Stats.SaveStats | CastNCatch-firebase/functions/src/statsFunctions.ts:37-113 | the forEach fold stores the round's summary of the stored statistics |
| Stats.Summarize | CastNCatch-firebase/functions/src/statsFunctions.ts:42-111 | the stored biggest catch is at least as heavy as every fish of the round and as the previous one, and the catch count grows by the round's fish |
| Stats.BiggestIsEarliestHeaviest | CastNCatch-firebase/functions/src/statsFunctions.ts:75-77 | the biggest catch is at least as heavy as every fish; a fish of the round holds it only if strictly heavier than all earlier ones and the stored record |
| Stats.TallyCountsEachName | CastNCatch-firebase/functions/src/statsFunctions.ts:79-90 | each caught name gains its count and ounce sum; names not caught are unchanged |
| Stats.TwoRounds | CastNCatch-firebase/functions/src/statsFunctions.ts:52-60 | two saved rounds equal one round of both, except that the stored ounces are truncated between them |
| Stats.TwoRoundsWholeOunces | CastNCatch-firebase/functions/src/statsFunctions.ts:56 | with whole stored ounces, two rounds also agree on the ounces |
| Stats.FractionLost | CastNCatch-firebase/functions/src/statsFunctions.ts:56 | a 0.5 oz round followed by an empty one reports 0 oz |
| Admin.UserReport | CastNCatch-firebase/functions/src/adminFunctions.ts:13-37 | highest is at least every balance and 0; its holder is the first user reaching it; the counts and the total match independent definitions |
| Admin.HighestStep | CastNCatch-firebase/functions/src/adminFunctions.ts:25-28 | the strict comparison keeps the first holder of the maximum |
| Admin.SumsStep | CastNCatch-firebase/functions/src/adminFunctions.ts:29-35 | each user visited adds their balance to the total and one to each count whose threshold they exceed |
| Admin.CountsNested | CastNCatch-firebase/functions/src/adminFunctions.ts:29-34 | the count above 50,000 never exceeds the count above 10,000 |
| Admin.EmptyReport | CastNCatch-firebase/functions/src/adminFunctions.ts:17-19 | with no users, highest stays 0 and highestUser stays "" |
| Admin.HighestWithinTotal | CastNCatch-firebase/functions/src/adminFunctions.ts:25-35 | with non-negative balances, no balance exceeds the total |

## Left out

- Firebase I/O and query semantics (`once`, `orderByChild`, `limitToLast`, `startAt`/`endAt`, Firestore
  queries) are not modelled. A query's answer is a parameter, and a `requires` says what the query returns:
  `Ranking.AscendingView`, `TimedChallenges.IncompleteListing`, `Admin.Listing`.
- Concurrency is modelled sequentially, in listing order:
  - `Promise.all` in the sweep, in settlement and in batch dismissal;
  - the transaction retry of `addCoinsAsync`.
- Push delivery (`sendCloudMessageAsync`) calls a foreign messaging API and is not modelled. This includes the
  push sent for a friend request, which stores no notification.
- Floating point: scores and ounces are exact reals. `NaN` is not modelled: `isNaN` in `addCoinsAsync` and
  `updateScoreAsync`, and `parseFloat`/`parseInt` on text or absent fields. Stored fields are read as numbers.
- Dates are integer millisecond timestamps in UTC. `setHours` acts on that day rather than on the server's
  local time zone. ISO date strings are not modelled.
- Randomness: each `Math.random()` draw is a parameter in [0, 1).
- Handler wrappers, authentication, `JSON.stringify`, `getToken` and `gimmeCoins` are glue and are not modelled.
- Read-only queries are not modelled: `getChallengesAsync`, `getChallengeScore(s)Async`, `getProTournaments*`,
  `searchUsersAsync`, `getFriendChallengesAsync` and the debug/test handlers.
- Admin report: the average coins (a float division, and a division by zero with no users) and the report's
  text are not modelled.
- Absent data:
  - With no location keys the code stores `locationKeys[index]`, which is `undefined`; the model stores `None`.
  - A user record without a display name gives a friend request or a friend score a `null` name; the model
    stores `None`.
- Unreachable branches are not modelled:
  - the "invalid or empty document" answers for a Firestore document that exists;
  - a snapshot without a key;
  - `arrayUnion` dropping a duplicate score, which cannot happen since the same player is turned away first.
- TimedChallenges.Sweep: its contract names the settled keys, and says that only their scores and completion
  flags change. It does not restate the balances and notifications each settlement produces; the contract of
  `TimedChallenges.AwardCoins` states those per call.
