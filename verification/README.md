# FinMen core, modelled in Dafny

FinMen is a learning platform for students, parents, schools, sellers and CSR
(corporate social responsibility) sponsors. Students play short educational
games that pay out HealCoins. The coins sit in a wallet and can be redeemed to
a UPI id. Parents link their children's accounts and follow their progress.
CSR sponsors see an impact dashboard.

This project models the core of that system and proves properties of the
model:

- **Wallet ledger** (`wallet_controller.dfy`). The add, spend and redeem
  requests of the wallet controller. The controller keeps a store of wallets
  and an append-only transaction log; the `Ledger` class updates both in
  place. The invariant `Consistent` says every balance equals the owner's
  credits minus debits minus redemptions, and is never negative. Each request
  preserves it.
- **Wallet page** (`wallet_page.dfy`): the student's wallet screen. It
  covers filtering and sorting of transactions, the client-side redemption
  with `parseInt`, the icon and colour tables, relative dates, and the two
  socket events that change the balance.
- **Parent links** (`parent_links.dfy`): linking a child to a parent and
  unlinking it, over a sequence of user documents.
- **Child analytics** (`child_analytics.dfy`): the parent's analytics view
  of a child. It covers pillar and overall mastery, the 30-day trend, weekly
  engagement, mood alerts and trend, achievements, conversation prompts, the
  home support plan and "time ago" labels.
- **User model** (`user_model.dfy`): the user schema's roles, required
  fields, defaults, child-email validation, the admin password hook, the
  virtual flags and the training modules.
- **Authentication** (`require_auth.dfy`): the `requireAuth` middleware and
  the role gates.
- **CSR impact** (`csr_impact.dfy`): the impact metrics and the six-point
  trend series, whose quarter captions use the corrected label (see
  Findings).
- **Student dashboard** (`student_dashboard.dfy`): the age gate, category
  slugs, card filtering, navigation, challenge unwrapping, and the stats
  block with its socket events.
- **Games.** Each game page is a class whose methods update its fields the
  way the page's `useState` setters do. The exceptions are the last steps of
  SelfDrivingCar and PatternMusicGame: there the methods run the corrected
  step, and the page's double count is modelled beside it (see Findings).
  Every method is specified by a transition function on a state value. Each module has a `Valid` invariant
  that says how score, coins and the result screen relate, and lemmas state
  each game's pass and award rules.
  - `threshold_quiz.dfy`: SalaryStory, PocketMoneyStory, FeelingsQuiz and
    PhotoShareQuiz.
  - `round_game.dfy`: StrongPasswordReflex, RobotVisionGame,
    ImageClassifierGame and SelfDrivingCar.
  - One module per page for the rest: KindWordsReflex, ReflexTeenInclusion,
    PatternMusicGame, the two level puzzles (SortingColors and
    PredictionPuzzle), ComfortRoleplay, PuzzleOfTrust, MiniJournal,
    JournalOfGratitude, JournalOfRespect, PuzzleRespectMatch and
    PuzzleInclusionActs.

Two modules hold shared definitions:

- `common.dfy`: Option, counting, sums, filters, JavaScript's `Math.round`
  of a quotient, trimming, lower-casing and decimal printing.
- `sorting.dfy`: a stable descending insertion sort.

Conventions used throughout:

- JavaScript's falsy-or-default idiom (`x || d`) is written with `Option`
  and an explicit test for zero or the empty string.
- A percentage such as `Math.round(score / n * 100) >= 70` is restated as an
  integer inequality. A lemma proves that the two agree.
- A state change that the page schedules with `setTimeout` takes effect at
  once, except in two places:
  - where the delay decides what the player can do, it is its own event:
    `Tick`/`Advance` in KindWordsReflex and `Advance` in PatternMusicGame;
  - the wallet page's three-second status clear is its own method
    (`ClearStatus`).

## Model

| member | source | states |
|---|---|---|
| WalletController.HttpStatus | backend/controllers/walletController.js:9-22 | a missing wallet answers 404 and every other failure 400 |
| WalletController.LookupWallet | backend/controllers/walletController.js:6-15 | GET /api/wallet fails with "Wallet not found" (404) exactly when the user has no wallet, and otherwise returns that wallet |
| WalletController.AddCoinsStep | backend/controllers/walletController.js:18-47 | fails with "Invalid amount" and no change exactly for a missing, zero or negative amount; otherwise the new balance is the old one (0 without a wallet) plus the amount, only that wallet changes, and exactly one credit record is appended with the description defaulting to "HealCoins added" |
| WalletController.SpendCoinsStep | backend/controllers/walletController.js:50-78 | a bad amount gives "Invalid amount" and no wallet or too small a balance gives "Insufficient balance", both with no change; success happens exactly otherwise, lowers that balance by the amount to a value of at least 0 and appends exactly one debit record ("HealCoins spent" by default) |
| WalletController.RedemptionStep | backend/controllers/walletController.js:91-130 | the three checks in order (missing amount or UPI id, amount 0 included; negative amount; no wallet or balance below the amount), none of them changing anything; success exactly when all pass, lowering the balance by the amount and appending one pending redeem record with the UPI id |
| WalletController.UserTransactions | backend/controllers/walletController.js:81-88 | the result holds only the user's records, newest first, and is a permutation of the user's records in the log |
| WalletController.NetIsCreditsMinusSpends | backend/controllers/walletController.js:32-120 | a user's net ledger effect equals total credits minus total debits minus total redemptions |
| WalletController.NetAppend | backend/controllers/walletController.js:36-41 | appending a record adds exactly its signed effect to the net |
| WalletController.NetWithoutRecords | backend/controllers/walletController.js:83 | a log with no records of the user has net effect 0 |
| WalletController.EmptyConsistent | backend/controllers/walletController.js:28-30 | the empty store satisfies the balance invariant |
| WalletController.AppendKeepsConsistent | backend/controllers/walletController.js:32-41 | updating one wallet by a record's effect and appending that record keeps every balance equal to its owner's net, and non-negative |
| WalletController.AddCoinsKeepsConsistent | backend/controllers/walletController.js:18-47 | addCoins preserves the balance invariant |
| WalletController.SpendCoinsKeepsConsistent | backend/controllers/walletController.js:50-78 | spendCoins preserves the balance invariant |
| WalletController.RedemptionKeepsConsistent | backend/controllers/walletController.js:91-130 | postRedemptionRequest preserves the balance invariant |
| WalletController.RunKeepsBalances | backend/controllers/walletController.js:32-120 | after any sequence of add, spend and redeem requests from empty stores, each balance equals credits minus debits minus redemptions and is at least 0 |
| WalletController.RunKeepsConsistent | backend/controllers/walletController.js:18-130 | any sequence of requests from a consistent store leaves it consistent |
| WalletController.ZeroAmountIsReportedAsMissing | backend/controllers/walletController.js:95-101 | an amount of 0 is refused with "Amount and UPI ID are required", not with "Amount must be greater than zero" |
| WalletController.Ledger.constructor | backend/controllers/walletController.js:1-2 | the ledger starts with no wallets and no records, and consistent |
| WalletController.Ledger.GetWallet | backend/controllers/walletController.js:6-15 | answers what LookupWallet specifies |
| WalletController.Ledger.AddCoins | backend/controllers/walletController.js:18-47 | updates the store in place as AddCoinsStep specifies and keeps the invariant |
| WalletController.Ledger.SpendCoins | backend/controllers/walletController.js:50-78 | updates the store in place as SpendCoinsStep specifies and keeps the invariant |
| WalletController.Ledger.PostRedemptionRequest | backend/controllers/walletController.js:91-130 | updates the store in place as RedemptionStep specifies and keeps the invariant |
| WalletController.Ledger.Transactions | backend/controllers/walletController.js:81-88 | only the user's records, newest first, and every one of them |
| WalletPage.Or0 | frontend/src/pages/Student/WalletPage.jsx:67 | `x \|\| 0` on a number: the number itself, or 0 for NaN or a missing value |
| WalletPage.DigitValue | frontend/src/pages/Student/WalletPage.jsx:120 | a decimal digit's value |
| WalletPage.LeadingDigits | frontend/src/pages/Student/WalletPage.jsx:120 | the length of the longest prefix of digits that `parseInt` reads |
| WalletPage.DigitsValueOfNat | frontend/src/pages/Student/WalletPage.jsx:120 | reading back a printed natural number gives that number |
| WalletPage.LeadingDigitsOfNat | frontend/src/pages/Student/WalletPage.jsx:120 | a string of digits is read in full |
| WalletPage.NatToStringFirstDigit | frontend/src/pages/Student/WalletPage.jsx:120 | a printed number starts with '0' only when it is 0 |
| WalletPage.ParseUnsignedOfDecimal | frontend/src/pages/Student/WalletPage.jsx:120 | the unsigned reader inverts decimal printing |
| WalletPage.TrimStartOfDecimal | frontend/src/pages/Student/WalletPage.jsx:120 | a printed number has no leading blanks for `parseInt` to skip |
| WalletPage.ParseIntOfDecimal | frontend/src/pages/Student/WalletPage.jsx:120 | `parseInt` of a printed natural number returns it |
| WalletPage.ParseIntOfNegative | frontend/src/pages/Student/WalletPage.jsx:120 | `parseInt("-" + n)` returns -n |
| WalletPage.ParseIntOfMinus | frontend/src/pages/Student/WalletPage.jsx:120 | a leading '-' negates whatever the digits after it parse to, and leaves NaN as NaN |
| WalletPage.FilteredTxns | frontend/src/pages/Student/WalletPage.jsx:101-113 | a permutation of exactly the records whose description contains the search text case-insensitively and whose type passes the filter, sorted by date descending for "newest" and ascending otherwise |
| WalletPage.FilteredTxnsMembers | frontend/src/pages/Student/WalletPage.jsx:101-107 | a record is listed iff it is in the list and passes both filters |
| WalletPage.UndescribedNeverListed | frontend/src/pages/Student/WalletPage.jsx:103 | a record without a description is never listed |
| WalletPage.TransactionIcon | frontend/src/pages/Student/WalletPage.jsx:146-157 | total over types: the coins icon exactly for types other than credit, debit and redeem, and the up-right arrow exactly for credit |
| WalletPage.StatusColor | frontend/src/pages/Student/WalletPage.jsx:159-170 | total over statuses: the grey default exactly for a missing or unknown status |
| WalletPage.FormatDate | frontend/src/pages/Student/WalletPage.jsx:172-184 | "Not available" iff no date, "Just now" iff under an hour, "Nh ago" iff 1 to 23 whole hours (with N the floor of the hours), "Yesterday" iff 24 to 47 hours, and otherwise the calendar date |
| WalletPage.Redeemed | frontend/src/pages/Student/WalletPage.jsx:115-143 | an empty amount or UPI id only sets "Please enter both amount and UPI ID"; an amount above the balance only sets "Insufficient balance"; otherwise one pending redeem record with the parsed amount and the UPI id is put in front of the list, the fields are cleared, and the balance drops by the parsed amount (NaN when the amount does not parse) |
| WalletPage.RefusedRedemptionKeepsWallet | frontend/src/pages/Student/WalletPage.jsx:116-123 | a refused redemption leaves balance and transactions unchanged |
| WalletPage.NegativeRedemptionRaisesBalance | frontend/src/pages/Student/WalletPage.jsx:120-141 | the client does not reject negative amounts: redeeming "-5" from a balance of 10 shows 15 |
| WalletPage.RedemptionBalanceMatchesRecord | frontend/src/pages/Student/WalletPage.jsx:134-141 | the drop in balance equals the amount on the new record |
| WalletPage.WalletView.constructor | frontend/src/pages/Student/WalletPage.jsx:31-39 | balance 0, no transactions, empty fields |
| WalletPage.WalletView.HandleRedeem | frontend/src/pages/Student/WalletPage.jsx:115-124 | the view changes as Redeemed specifies |
| WalletPage.WalletView.RedemptionTimer | frontend/src/pages/Student/WalletPage.jsx:125-141 | the delayed part of a redemption: the view becomes Accepted's, one pending record for the UPI id captured at the click in front, and the balance lowered by the parsed amount |
| WalletPage.Accepted | frontend/src/pages/Student/WalletPage.jsx:125-141 | an accepted redemption shows the success message, clears the fields, puts exactly one pending redeem record for the UPI id captured at the click in front of the old list, and lowers the balance by the parsed amount (NaN when it does not parse) |
| WalletPage.WalletView.ClearStatus | frontend/src/pages/Student/WalletPage.jsx:142 | only the status message is cleared |
| WalletPage.WalletView.GameCompleted | frontend/src/pages/Student/WalletPage.jsx:61-63 | the balance becomes the event's `newBalance`, nothing else changes |
| WalletPage.WalletView.ChallengeCompleted | frontend/src/pages/Student/WalletPage.jsx:65-67 | the balance grows by the reward coins, each side defaulting to 0, nothing else changes |
| ParentLinks.LinkStatus | backend/routes/parentRoutes.js:21-70 | status 200 exactly for a successful link |
| ParentLinks.Remove | backend/routes/parentRoutes.js:1092-1094 | the id is gone and every other id keeps its number of occurrences (in order, as the filter) |
| ParentLinks.RemoveAppended | backend/routes/parentRoutes.js:1091-1094 | removing an id just appended to a list without it gives the list back |
| ParentLinks.RemoveAbsent | backend/routes/parentRoutes.js:1092-1094 | removing an absent id changes nothing |
| ParentLinks.FindStudent | backend/routes/parentRoutes.js:31-34 | the first document with role student or school_student and that email, or none |
| ParentLinks.FindById | backend/routes/parentRoutes.js:1099 | the first document with that id, or none |
| ParentLinks.WithChild | backend/routes/parentRoutes.js:47-54 | the child ids become the old ones (empty if absent) plus the child, parent ids unchanged |
| ParentLinks.WithParent | backend/routes/parentRoutes.js:58-65 | the parent ids become the old ones (empty if absent) plus the parent, child ids unchanged |
| ParentLinks.WithoutChild | backend/routes/parentRoutes.js:1091-1095 | the child id is removed from a present list, other ids keep their counts |
| ParentLinks.WithoutParent | backend/routes/parentRoutes.js:1100-1104 | the parent id is removed from a present list, other ids keep their counts |
| ParentLinks.AfterLinkChild | backend/routes/parentRoutes.js:21-70 | "Child email is required" iff the email is missing or empty; every failure changes nothing; not found means no student has the lowercased trimmed email; already linked means the found student is in the parent's list; success appends the child to the parent's list and the parent to the child's, changing no other document |
| ParentLinks.AfterUnlink | backend/routes/parentRoutes.js:1085-1112 | the parent's list is exactly its old list with the child id filtered out, the other ids kept; success iff the id is a 24-hex-digit ObjectId; then the found child's parents are its old parents with the parent filtered out, its identity and children kept; the parent keeps its identity and, unless it is that child, its parents; no other document changes, and on failure only the parent's list does |
| ParentLinks.FindByIdIgnoresLinks | backend/routes/parentRoutes.js:1099 | the lookup by id does not depend on the link arrays |
| ParentLinks.LinkThenUnlink | backend/routes/parentRoutes.js:21-1112 | linking a child and then unlinking it restores the parent's child list |
| ParentLinks.Directory.constructor | backend/routes/parentRoutes.js:21 | the directory holds the given documents |
| ParentLinks.Directory.LinkChild | backend/routes/parentRoutes.js:21-70 | updates the documents in place as AfterLinkChild specifies |
| ParentLinks.Directory.Unlink | backend/routes/parentRoutes.js:1085-1112 | updates the documents in place as AfterUnlink specifies |
| ChildAnalytics.ChildIdGuard | backend/routes/parentRoutes.js:149-152 | refused with 400 "Invalid child ID" iff the id is missing or its length is not 24; otherwise the route goes on |
| ChildAnalytics.ChildIdLengthOnly | backend/routes/parentRoutes.js:150 | only the length is checked: ids of equal length get the same answer, and any 24-character id goes on |
| ChildAnalytics.PillarCount | backend/routes/parentRoutes.js:220 | the number of games of the pillar, 0 iff none |
| ChildAnalytics.PillarTotalBounds | backend/routes/parentRoutes.js:222 | with progress in [0,100], the pillar total lies in [0, 100·count] |
| ChildAnalytics.PillarMastery | backend/routes/parentRoutes.js:219-225 | defined iff the pillar has a game, and then the mean progress rounded as `Math.round` does |
| ChildAnalytics.PillarMasteryInRange | backend/routes/parentRoutes.js:223 | pillar mastery lies in [0,100] |
| ChildAnalytics.PillarsData | backend/routes/parentRoutes.js:211-225 | exactly the named pillars that have games, each with its mastery |
| ChildAnalytics.OverallMastery | backend/routes/parentRoutes.js:227-229 | 0 with no pillars, otherwise the rounded mean of the pillar values |
| ChildAnalytics.MasterySumBounds | backend/routes/parentRoutes.js:228 | pillar values in [0,100] sum to at most 100 per pillar |
| ChildAnalytics.MasteryInRange | backend/routes/parentRoutes.js:211-229 | every pillar mastery and the overall mastery lie in [0,100] |
| ChildAnalytics.PlayedCount | backend/routes/parentRoutes.js:236-239 | the games last played on or before a date: at most all games, and none iff every game was played later |
| ChildAnalytics.PlayedTotalBounds | backend/routes/parentRoutes.js:240-241 | the progress total of the games played by a date lies in [0, 100·their number] |
| ChildAnalytics.DayMastery | backend/routes/parentRoutes.js:240-242 | the rounded mean progress of the games played by that date, or the overall mastery when there are none |
| ChildAnalytics.DayMasteryInRange | backend/routes/parentRoutes.js:240-242 | a day's mastery lies in [0,100] |
| ChildAnalytics.MasteryTrend | backend/routes/parentRoutes.js:232-244 | exactly 30 points, oldest first, one per day, each with that day's mastery |
| ChildAnalytics.FilterSplitsSum | backend/routes/parentRoutes.js:256-267 | game minutes plus lesson minutes are the total, and game sessions plus lesson sessions are all logs |
| ChildAnalytics.TallyTotals | backend/routes/parentRoutes.js:256-267 | adding the logs one at a time, each to the total and to exactly one of the game or lesson sums and counts, gives the sums and counts over the whole list |
| ChildAnalytics.WeeklyEngagement | backend/routes/parentRoutes.js:247-267 | total minutes is the sum of durations (default 5), split exactly into game and lesson minutes; sessions are the number of logs, split likewise |
| ChildAnalytics.MoodAlerts | backend/routes/parentRoutes.js:285-301 | a warning with the count iff at least 3 scores are at most 2 (score default 3), a high alert iff some score is 1, and nothing else |
| ChildAnalytics.MoodTrendThresholds | backend/routes/parentRoutes.js:482 | the trend is positive iff the average to one decimal is at least 3.5 and concerning iff below 2.5, stated on the score sum; neutral without entries (whose average is 3.0) |
| ChildAnalytics.LowAverageThreshold | backend/routes/parentRoutes.js:419 | the one-decimal average is below 3 iff 20·sum < 59·count; without entries it is 3.0 |
| ChildAnalytics.Badges | backend/routes/parentRoutes.js:306-316 | one achievement per badge title of the game, carrying the game's data |
| ChildAnalytics.AllAchievements | backend/routes/parentRoutes.js:304-329 | as many achievements as badges plus completion certificates |
| ChildAnalytics.RecentAchievements | backend/routes/parentRoutes.js:331-332 | the 10 newest (all of them when fewer), newest first, drawn from all achievements, and none left out is newer than one kept |
| ChildAnalytics.ConversationPrompts | backend/routes/parentRoutes.js:351-389 | four prompts iff the average is below 3, otherwise three; the last two are always the achievement and favourite-activity prompts; the "feeling down" prompt iff below 3, the "going well" prompt iff at least 4 |
| ChildAnalytics.Weakest | backend/routes/parentRoutes.js:400-402 | the first entry of the stable ascending sort: a pillar of least mastery, and every pillar before it in order has strictly greater mastery |
| ChildAnalytics.FirstMinPillar | backend/routes/parentRoutes.js:400-402 | the pillar at the first position of largest negated mastery has the least mastery, and all pillars before it have more |
| ChildAnalytics.Suggestions | backend/routes/parentRoutes.js:404-446 | at most three items, at most one of each kind and in the order practice, mood item, celebration; never the routine tip; practice on the weakest pillar first exactly when there are pillars |
| ChildAnalytics.HomeSupportPlan | backend/routes/parentRoutes.js:404-457 | exactly three items: the suggestions, then the consistent-schedule filler; practice on the weakest pillar first when there are pillars; the emotional check-in iff the average is below 3; the increase-engagement item iff the average is at least 3 and the week has under 60 minutes; the celebration iff there are recent achievements |
| ChildAnalytics.PadWithRoutine | backend/routes/parentRoutes.js:449-457 | the list is kept as its prefix and filled with the routine tip up to three items; a list of three or more is left as it is |
| ChildAnalytics.SuggestionsMembers | backend/routes/parentRoutes.js:418-446 | the emotional check-in iff the average is below 3, the increase-engagement item iff the average is at least 3 and under 60 minutes were spent, the celebration iff achievements exist |
| ChildAnalytics.FloorTwice | backend/routes/parentRoutes.js:1226-1232 | flooring twice is flooring by the product |
| ChildAnalytics.FormatTimeAgo | backend/routes/parentRoutes.js:1225-1234 | "Just now" iff under 60 s; otherwise N minutes, hours or days with N the floor, each in its range, days iff at least 24 h |
| UserModel.ParseRole | backend/models/User.js:92-102 | a missing role defaults to student; an accepted role is one of the twelve names; any other name is refused |
| UserModel.ParseRoleName | backend/models/User.js:92-102 | every role's name parses back to that role |
| UserModel.ParseShopType | backend/models/User.js:156-162 | accepts exactly the six shop types |
| UserModel.IndexOf | backend/models/User.js:142 | the first position of a character, or none |
| UserModel.ValidChildEmailIffPattern | backend/models/User.js:141-143 | the validator agrees with `^[^\s@]+@[^\s@]+\.[^\s@]+$` in both directions |
| UserModel.ValidChildEmailShape | backend/models/User.js:141-143 | a valid child email has at least 5 characters, no whitespace and exactly one '@' |
| UserModel.DefaultIsVerified | backend/models/User.js:169-174 | true exactly for parent, seller, csr and admin |
| UserModel.DefaultApproval | backend/models/User.js:175-183 | pending exactly for seller and csr, approved for every other role |
| UserModel.Problems | backend/models/User.js:9-168 | the validation problems are exactly the failed rules: name and email required, the role enumeration, the role-dependent required fields, and the format and enumeration checks, which a field failing `required` does not also report |
| UserModel.Save | backend/models/User.js:9-285 | invalid iff some rule fails; refused iff valid but an admin without a password; a saved document has the parsed role and the given or default isVerified and approvalStatus |
| UserModel.SavedDocumentsKeepRoleRules | backend/models/User.js:136-168 | a saved parent has a valid child email, a seller a business name and shop type, a csr an organization, an admin a password |
| UserModel.OnlyAdminsNeedPassword | backend/models/User.js:280-285 | a valid non-admin is always saved |
| UserModel.MinimalSignUp | backend/models/User.js:9-183 | with only name, email, role and password, exactly parent, seller and csr fail; the others are saved approved, verified only for admin |
| UserModel.NameAndEmailRequired | backend/models/User.js:9-16 | a document without a name or an email (empty counting as none) is invalid, with that problem reported |
| UserModel.EmptyChildEmailReportedOnce | backend/models/User.js:136-147 | a parent's empty child email is reported as required and not also as malformed |
| UserModel.CanUseGoogleLogin | backend/models/User.js:287-289 | holds iff the role is student |
| UserModel.DefaultRoleUsesGoogleLogin | backend/models/User.js:92-102 | a document saved without a role may sign in with Google; one saved with any role name other than "student" may not |
| UserModel.NeedsOTPVerification | backend/models/User.js:291-293 | holds iff student and not verified |
| UserModel.NewStudentsNeedOTP | backend/models/User.js:169-293 | a saved user with no isVerified given needs OTP iff a student |
| UserModel.StoreTrainingModule | backend/models/User.js:259-275 | refused iff progress is outside [0,100] or the status is unknown; otherwise progress (default 0) in [0,100] and status defaulting to not_started |
| RequireAuth.SecondField | backend/middlewares/requireAuth.js:8 | `split(" ")[1]`: none iff there is no space; otherwise a field without spaces |
| RequireAuth.ExtractToken | backend/middlewares/requireAuth.js:7-8 | the cookie wins when present; without cookie or header there is no token; a token is never empty |
| RequireAuth.BearerHeaderToken | backend/middlewares/requireAuth.js:8 | "Bearer t" yields t |
| RequireAuth.HeaderWithoutSecondField | backend/middlewares/requireAuth.js:8-12 | a header with no space yields no token |
| RequireAuth.Authenticate | backend/middlewares/requireAuth.js:5-26 | every rejection is 401; next iff a token verifies to a known user, who becomes req.user without its password and with its role; no token, bad token and unknown user each give their message |
| RequireAuth.Admitted | backend/middlewares/requireAuth.js:29-92 | every gate but the school gate admits exactly one role |
| RequireAuth.Check | backend/middlewares/requireAuth.js:29-92 | pass iff a user is present with an admitted role, otherwise 403 with the gate's message |
| RequireAuth.SingleRoleGates | backend/middlewares/requireAuth.js:29-83 | each single-role gate passes iff the role name equals its role |
| RequireAuth.AbsentUserDenied | backend/middlewares/requireAuth.js:30-88 | every gate denies an absent user with 403 |
| RequireAuth.SchoolGateExcludesTransportStaff | backend/middlewares/requireAuth.js:86-92 | the school gate passes exactly the school_ roles other than school_transport_staff, which the user model does accept |
| RequireAuth.Guarded | backend/middlewares/requireAuth.js:5-92 | authentication followed by a gate passes iff the token verifies to a known user with an admitted role |
| CsrImpact.LookbackDays | backend/routes/csrRoutes.js:26-38 | week 7 days, quarter 90, year 365, anything else 30 |
| CsrImpact.StartDate | backend/routes/csrRoutes.js:26-38 | the start lies that many days before now |
| CsrImpact.LongerPeriodsReachFurther | backend/routes/csrRoutes.js:26-38 | year starts no later than quarter, quarter than month, month than week |
| CsrImpact.AllRegionsIgnoreCity | backend/routes/csrRoutes.js:41-44 | with region "all" a user is in scope iff a student created since the start |
| CsrImpact.RegionMatchesCityExactly | backend/routes/csrRoutes.js:41-44 | any other region also requires the city to equal it |
| CsrImpact.Ids | backend/routes/csrRoutes.js:47 | the ids of the students, in order |
| CsrImpact.Distinct | backend/routes/csrRoutes.js:62 | the same values without repeats |
| CsrImpact.NoRepeatsCardinality | backend/routes/csrRoutes.js:62 | a list without repeats has as many elements as values |
| CsrImpact.DistinctCount | backend/routes/csrRoutes.js:62 | the length of the de-duplicated list is the number of distinct values |
| CsrImpact.Institutions | backend/routes/csrRoutes.js:62 | exactly the truthy institution values |
| CsrImpact.ModuleOf | backend/routes/csrRoutes.js:77-86 | students is the number of matching games; progress is 0 without any, otherwise the mean progress (missing as 0); completion stays 0 |
| CsrImpact.Mean | backend/routes/csrRoutes.js:82 | the mean times the count is the sum |
| CsrImpact.MeanTimesCount | backend/routes/csrRoutes.js:82 | division by the count is undone by multiplication |
| CsrImpact.MeanBounds | backend/routes/csrRoutes.js:82-86 | a mean of values in [0,hi] lies in [0,hi] |
| CsrImpact.ModuleProgressInRange | backend/routes/csrRoutes.js:77-86 | module progress lies in [0,100] when game progress does |
| CsrImpact.ImpactOf | backend/routes/csrRoutes.js:20-96 | region and period echo the parameters with defaults "all" and "month"; values and ai stay at zero progress (finance and mental are stated by ImpactCounts) |
| CsrImpact.ImpactCounts | backend/routes/csrRoutes.js:41-86 | students impacted counts the students in scope; items distributed counts their approved redemptions since the start; funded value sums their prices (missing as 0); schools reached counts the distinct truthy institutions; finance and mental are ModuleOf over the game records of the students in scope, with the finance/budget and mental/mood game types |
| CsrImpact.FilteredModulesInRange | backend/routes/csrRoutes.js:72-86 | over any selection of in-range records, both module progress figures lie in [0, 100] and count at most the records |
| CsrImpact.ImpactModulesInRange | backend/routes/csrRoutes.js:64-86 | with stored progress in [0, 100], the reported finance and mental progress lie in [0, 100] and count at most the stored records |
| CsrImpact.SameSchoolCountsOnce | backend/routes/csrRoutes.js:62 | two students of one school count as one school |
| CsrImpact.NormMonth | backend/routes/csrRoutes.js:182-186 | a month offset normalised to a year and a month 0-11 |
| CsrImpact.CeilDiv | backend/routes/csrRoutes.js:181 | `Math.ceil(a / b)` bounds |
| CsrImpact.QuarterLabelZero | backend/routes/csrRoutes.js:181 | the label as written gives "Q0" in February for the second-newest quarter and "Q-1" for the one before |
| CsrImpact.QuarterLabelAsWritten | backend/routes/csrRoutes.js:181 | as written: starts with "Q"; a window inside the current year gets its quarter 1-4; a window reaching into an earlier year gets "Q0" or a negative number |
| CsrImpact.QuarterNumber | backend/routes/csrRoutes.js:178-181 | the corrected quarter number lies in 1-4 |
| CsrImpact.QuarterLabel | backend/routes/csrRoutes.js:178-181 | the corrected label is one of Q1-Q4 |
| CsrImpact.QuarterLabelAgrees | backend/routes/csrRoutes.js:181 | the corrected label agrees with the written one whenever the quarter does not cross into the previous year |
| CsrImpact.TrendWindow | backend/routes/csrRoutes.js:174-185 | for "week", entry i spans from now-(i+1)·7 days to now-i·7 days; otherwise, with a step of 3 months for "quarter" and 1 month for anything else, from the first day of the month (i+1)·step months back to the last day of the month i·step+1 months back |
| CsrImpact.Trends | backend/routes/csrRoutes.js:165-205 | corrected: exactly six entries, oldest first, entry k being window 5-k; period defaults to "month" and metric to "students" when absent, so a request without a metric charts sign-ups; quarter captions use the corrected QuarterLabel (Q1-Q4) rather than the route's unwrapped label |
| CsrImpact.WeeklyTrendsTile | backend/routes/csrRoutes.js:174-177 | weekly entries are labelled "Week 1" to "Week 6", each spans seven days, and each ends where the next begins |
| CsrImpact.CalendarTrendsAscend | backend/routes/csrRoutes.js:178-186 | month and quarter windows advance by one month or three months, each ending just before the next begins |
| StudentDashboard.CalculateUserAge | frontend/src/pages/Student/StudentDashboard.jsx:110-127 | no age iff the date of birth is missing or unparsable; otherwise the age-th birthday is on or before today and the next one is not |
| StudentDashboard.CanAccessGame | frontend/src/pages/Student/StudentDashboard.jsx:131-147 | false without an age; "adults" iff at least 18; every other type allowed |
| StudentDashboard.AccessIsMonotoneInAge | frontend/src/pages/Student/StudentDashboard.jsx:131-147 | an older user can open whatever a younger one can |
| StudentDashboard.DashRuns | frontend/src/pages/Student/StudentDashboard.jsx:635 | whitespace runs become '-', nothing else is introduced, text without whitespace is unchanged |
| StudentDashboard.StripMarks | frontend/src/pages/Student/StudentDashboard.jsx:636 | '(', ')' and '&' are removed and nothing else is |
| StudentDashboard.CollapseDashes | frontend/src/pages/Student/StudentDashboard.jsx:637 | no "--" remains, nothing new is introduced, text already without "--" is unchanged |
| StudentDashboard.SlugShape | frontend/src/pages/Student/StudentDashboard.jsx:634-637 | a slug has no whitespace, none of `()&` and no "--" |
| StudentDashboard.LowerIdempotent | frontend/src/pages/Student/StudentDashboard.jsx:634 | lower-casing twice is lower-casing once |
| StudentDashboard.LowerKeepsShape | frontend/src/pages/Student/StudentDashboard.jsx:634-637 | lower-casing keeps a slug's shape |
| StudentDashboard.SlugIdempotent | frontend/src/pages/Student/StudentDashboard.jsx:634-637 | the slug of a slug is itself |
| StudentDashboard.SlugIsLower | frontend/src/pages/Student/StudentDashboard.jsx:634-637 | a slug is unchanged by lower-casing |
| StudentDashboard.FilteredCards | frontend/src/pages/Student/StudentDashboard.jsx:504-508 | exactly the cards not titled "Kids Games", "Teen Games" or "Adult Games" |
| StudentDashboard.FilteredCardsKeepOrder | frontend/src/pages/Student/StudentDashboard.jsx:504-508 | filtering distributes over concatenation, so the order is kept |
| StudentDashboard.NavigateTo | frontend/src/pages/Student/StudentDashboard.jsx:384-406 | a non-empty string path is followed, anything else goes to "/student/dashboard" |
| StudentDashboard.LoadChallenges | frontend/src/pages/Student/StudentDashboard.jsx:268-274 | unchanged without the field, [] for a non-array, otherwise each item's `challenge` or the item itself |
| StudentDashboard.LoadedStats | frontend/src/pages/Student/StudentDashboard.jsx:247-255 | level, next-level xp and mood are never falsy; a truthy level is kept; a missing xp is 0 |
| StudentDashboard.EmptyPayloadIsFallback | frontend/src/pages/Student/StudentDashboard.jsx:247-310 | an empty payload loads the same stats as a failed load |
| StudentDashboard.AfterGameCompleted | frontend/src/pages/Student/StudentDashboard.jsx:421-427 | xp, level and streak take a truthy reported value and otherwise keep theirs; next-level xp is level·100; mood, rank and weekly xp unchanged |
| StudentDashboard.EmptyGameEvent | frontend/src/pages/Student/StudentDashboard.jsx:421-427 | an empty event only recomputes next-level xp |
| StudentDashboard.DashboardStats.constructor | frontend/src/pages/Student/StudentDashboard.jsx:86-94 | the stats start at the fallback values |
| StudentDashboard.DashboardStats.LoadSucceeded | frontend/src/pages/Student/StudentDashboard.jsx:245-255 | the stats become LoadedStats of the payload |
| StudentDashboard.DashboardStats.LoadFailed | frontend/src/pages/Student/StudentDashboard.jsx:302-310 | xp 0, level 1, next-level xp 100, streak 0, rank 0, weekly xp 0 |
| StudentDashboard.DashboardStats.GameCompleted | frontend/src/pages/Student/StudentDashboard.jsx:421-427 | the stats change as AfterGameCompleted specifies |
| StudentDashboard.DashboardStats.ChallengeCompleted | frontend/src/pages/Student/StudentDashboard.jsx:455-456 | streak grows by one, nothing else changes |
| StudentDashboard.DashboardStats.LevelUp | frontend/src/pages/Student/StudentDashboard.jsx:463-468 | only level and xp change |
| ThresholdQuiz.IsCorrectChoice | frontend/src/pages/Student/Finance/Teen/SalaryStory.jsx:128 | `find(...)?.isCorrect`: true only when some option with that id is correct; false when no option has the id; when the first option has the id, its flag decides |
| ThresholdQuiz.CorrectCount | frontend/src/pages/Student/Finance/Teen/SalaryStory.jsx:141 | the correct answers are at most all answers |
| ThresholdQuiz.Answered | frontend/src/pages/Student/Finance/Teen/SalaryStory.jsx:118-145 | the answer record is appended; before the last question the next one follows and the per-answer coin is added for a correct one; after it the result shows with the final score equal to the number of correct answers |
| ThresholdQuiz.FinalScoreBounded | frontend/src/pages/Student/Finance/Teen/SalaryStory.jsx:141-142 | the final score is at most the number of questions |
| ThresholdQuiz.StoryCoinsEqualScore | frontend/src/pages/Student/Finance/Teen/SalaryStory.jsx:129-169 | in the money stories (SalaryStory and PocketMoneyStory share the rules) the coins equal the final score, at most 5, and the player passes iff it is at least 3 |
| ThresholdQuiz.FeelingsAward | frontend/src/pages/Student/UVLS/Kids/FeelingsQuiz.jsx:97-102 | three coins iff at least 4 of 6 are correct, none otherwise |
| ThresholdQuiz.PhotoSharePercentages | frontend/src/pages/Student/DCOS/Kids/PhotoShareQuiz.jsx:92-122 | both the exact and the rounded percentage reach 70 iff at least 5 of 6 are correct |
| ThresholdQuiz.RunningScore | frontend/src/pages/Student/UVLS/Kids/FeelingsQuiz.jsx:144 | while playing, the correct answers never exceed the questions answered |
| ThresholdQuiz.Quiz.constructor | frontend/src/pages/Student/DCOS/Kids/PhotoShareQuiz.jsx:8-11 | first question, no answers, no coins, no result |
| ThresholdQuiz.Quiz.Answer | frontend/src/pages/Student/DCOS/Kids/PhotoShareQuiz.jsx:71-99 | the state changes as Answered specifies, with correctness looked up among the options |
| ThresholdQuiz.Quiz.TryAgain | frontend/src/pages/Student/UVLS/Kids/FeelingsQuiz.jsx:106-112 | back to the initial state |
| RoundGame.Chosen | frontend/src/pages/Student/DCOS/Kids/StrongPasswordReflex.jsx:40-61 | the score grows by one exactly when the choice is the round's answer; before the last round the next one follows, after it the result shows |
| RoundGame.Matches | frontend/src/pages/Student/AiForAll/Kids/RobotVisionGame.jsx:29-45 | the number of matching choices is at most the choices made |
| RoundGame.Run | frontend/src/pages/Student/AiForAll/Teen/ImageClassifierGame.jsx:29-45 | after any sequence of choices the state is valid, the round is the number of choices, the result shows after the last, and the score is the number of choices that match the key |
| RoundGame.RunOutcome | frontend/src/pages/Student/AiForAll/Kids/RobotVisionGame.jsx:29-67 | a finished game's coins follow from its matches, and it passes iff the matches reach the threshold |
| RoundGame.StrongPasswordThreshold | frontend/src/pages/Student/DCOS/Kids/StrongPasswordReflex.jsx:52-84 | 70% of 20 means 14 correct, for both the exact and the rounded accuracy; three coins iff passed |
| RoundGame.VisionCoinsAndAccuracy | frontend/src/pages/Student/AiForAll/Kids/RobotVisionGame.jsx:33-67 | two coins per correct image at every moment; accuracy is ten times the score; passing is 70% |
| RoundGame.SelfDrivingCarAward | frontend/src/pages/Student/AiForAll/Kids/SelfDrivingCar.jsx:40-66 | corrected: five coins iff at least 6 of 8 are right, passing iff the coins are paid, score at most 8 |
| RoundGame.SelfDrivingChosenAsWritten | frontend/src/pages/Student/AiForAll/Kids/SelfDrivingCar.jsx:27-46 | as written, a right choice in the last round adds two to the score |
| RoundGame.SelfDrivingDoubleCount | frontend/src/pages/Student/AiForAll/Kids/SelfDrivingCar.jsx:31-66 | as written, 5 right including the last shows score 6 with no coins yet passes; 8 right shows 9 |
| RoundGame.Rounds.constructor | frontend/src/pages/Student/AiForAll/Kids/RobotVisionGame.jsx:8-11 | the initial state of the game, valid |
| RoundGame.Rounds.Start | frontend/src/pages/Student/DCOS/Kids/StrongPasswordReflex.jsx:101 | the game starts at round 0 with nothing scored |
| RoundGame.Rounds.Choose | frontend/src/pages/Student/AiForAll/Kids/SelfDrivingCar.jsx:27-46 | corrected: the state changes as Chosen specifies, so the last right choice counts once rather than twice as the page counts it |
| RoundGame.Rounds.TryAgain | frontend/src/pages/Student/AiForAll/Kids/SelfDrivingCar.jsx:48-54 | back to the initial state |
| KindWordsReflex.Started | frontend/src/pages/Student/DCOS/Kids/KindWordsReflex.jsx:128 | the start button starts the game at word 0, score 0, with the full two seconds |
| KindWordsReflex.Ticked | frontend/src/pages/Student/DCOS/Kids/KindWordsReflex.jsx:35-45 | with time left one second passes; at zero the word is given up and the advance is pending; score and word unchanged |
| KindWordsReflex.Chosen | frontend/src/pages/Student/DCOS/Kids/KindWordsReflex.jsx:62-74 | the score grows by one exactly when the choice matches the word; the advance is then pending |
| KindWordsReflex.Advanced | frontend/src/pages/Student/DCOS/Kids/KindWordsReflex.jsx:43-85 | the next word with two seconds, or after the last the result with the award for the score; the score is kept |
| KindWordsReflex.KindWordsThreshold | frontend/src/pages/Student/DCOS/Kids/KindWordsReflex.jsx:50-111 | 70% of 15 means 11 correct; three coins iff at least 11, none otherwise |
| KindWordsReflex.KindWords.constructor | frontend/src/pages/Student/DCOS/Kids/KindWordsReflex.jsx:8-14 | the initial state, valid |
| KindWordsReflex.KindWords.Start | frontend/src/pages/Student/DCOS/Kids/KindWordsReflex.jsx:128 | the state changes as Started specifies |
| KindWordsReflex.KindWords.Tick | frontend/src/pages/Student/DCOS/Kids/KindWordsReflex.jsx:35-45 | the state changes as Ticked specifies |
| KindWordsReflex.KindWords.Choose | frontend/src/pages/Student/DCOS/Kids/KindWordsReflex.jsx:62-74 | the state changes as Chosen specifies |
| KindWordsReflex.KindWords.Advance | frontend/src/pages/Student/DCOS/Kids/KindWordsReflex.jsx:43-85 | the state changes as Advanced specifies |
| KindWordsReflex.KindWords.TryAgain | frontend/src/pages/Student/DCOS/Kids/KindWordsReflex.jsx:88-97 | back to the initial state |
| ReflexTeenInclusion.Key | frontend/src/pages/Student/CRGC/Teen/ReflexTeenInclusion.jsx:16-27 | the answers are the actions' `isInclusive` flags, in order |
| ReflexTeenInclusion.Chosen | frontend/src/pages/Student/CRGC/Teen/ReflexTeenInclusion.jsx:29-53 | one round more, and one correct more exactly when the choice matches the action |
| ReflexTeenInclusion.Run | frontend/src/pages/Student/CRGC/Teen/ReflexTeenInclusion.jsx:29-53 | after k choices the round is k, the correct count is the number of matching choices, and the game is over iff all ten are made |
| ReflexTeenInclusion.NextEnabledAtSeven | frontend/src/pages/Student/CRGC/Teen/ReflexTeenInclusion.jsx:29-64 | next is enabled iff the game is over with at least 7 correct |
| ReflexTeenInclusion.InclusionReflex.constructor | frontend/src/pages/Student/CRGC/Teen/ReflexTeenInclusion.jsx:29-31 | the first action is on screen, nothing counted |
| ReflexTeenInclusion.InclusionReflex.Choose | frontend/src/pages/Student/CRGC/Teen/ReflexTeenInclusion.jsx:41-53 | the state changes as Chosen specifies |
| PatternMusicGame.StartedRepeating | frontend/src/pages/Student/AiForAll/Kids/PatternMusicGame.jsx:54-56 | the pattern is hidden, the entry is empty, the score is kept |
| PatternMusicGame.Tapped | frontend/src/pages/Student/AiForAll/Kids/PatternMusicGame.jsx:26-35 | the beat is appended; the score grows by one exactly when the entry is complete and equals the rhythm |
| PatternMusicGame.Advanced | frontend/src/pages/Student/AiForAll/Kids/PatternMusicGame.jsx:36-50 | corrected: the next rhythm, shown with an empty entry, or after the last the result with five coins iff the score is at least 4; the score is kept |
| PatternMusicGame.PassedWithCoins | frontend/src/pages/Student/AiForAll/Kids/PatternMusicGame.jsx:44-84 | on the result, passing and the five coins coincide, and the score is at most 5 |
| PatternMusicGame.AdvancedAsWritten | frontend/src/pages/Student/AiForAll/Kids/PatternMusicGame.jsx:34-48 | as written, a right last rhythm is counted a second time |
| PatternMusicGame.PatternDoubleCount | frontend/src/pages/Student/AiForAll/Kids/PatternMusicGame.jsx:34-78 | as written, 3 right including the last shows 4 with no coins yet passes; 4 right shows "5" |
| PatternMusicGame.PatternGame.constructor | frontend/src/pages/Student/AiForAll/Kids/PatternMusicGame.jsx:8-13 | the first rhythm is shown, nothing scored |
| PatternMusicGame.PatternGame.StartRepeating | frontend/src/pages/Student/AiForAll/Kids/PatternMusicGame.jsx:54-56 | the state changes as StartedRepeating specifies |
| PatternMusicGame.PatternGame.Tap | frontend/src/pages/Student/AiForAll/Kids/PatternMusicGame.jsx:26-35 | the state changes as Tapped specifies |
| PatternMusicGame.PatternGame.Advance | frontend/src/pages/Student/AiForAll/Kids/PatternMusicGame.jsx:36-50 | corrected: the state changes as Advanced specifies, so the last rhythm counts once rather than twice as the page counts it |
| PatternMusicGame.PatternGame.TryAgain | frontend/src/pages/Student/AiForAll/Kids/PatternMusicGame.jsx:58-66 | back to the initial state |
| LevelPuzzle.FeedbackFor | frontend/src/pages/Student/AI/SortingColors.jsx:201-211 | right exactly when the option is the level's answer, with non-empty praise |
| LevelPuzzle.Clicked | frontend/src/pages/Student/AI/SortingColors.jsx:195-212 | nothing while locked; otherwise the pick is recorded and locks the options, the score grows by the reward exactly for the right answer, a wrong pick names the right one, and PredictionPuzzle flashes the reward |
| LevelPuzzle.NextEnabledOnceAnswered | frontend/src/pages/Student/AI/SortingColors.jsx:322 | both pages' next buttons are enabled iff the level is answered |
| LevelPuzzle.NextLevel | frontend/src/pages/Student/AI/SortingColors.jsx:214-229 | the next level unlocked with no feedback and the score kept; at the last level SortingColors restarts with score 0 and PredictionPuzzle ends keeping the score |
| LevelPuzzle.EarnedUniform | frontend/src/pages/Student/AI/PredictionPuzzle.jsx:14-52 | with equal rewards r, k levels earn r·k |
| LevelPuzzle.ScoreAtMost25 | frontend/src/pages/Student/AI/PredictionPuzzle.jsx:54-84 | the score is at most 5 per level answered, so at most 25 |
| LevelPuzzle.Puzzle.constructor | frontend/src/pages/Student/AI/PredictionPuzzle.jsx:5-12 | the first level, unlocked, score 0 |
| LevelPuzzle.Puzzle.OptionClick | frontend/src/pages/Student/AI/PredictionPuzzle.jsx:54-72 | the state changes as Clicked specifies |
| LevelPuzzle.Puzzle.Next | frontend/src/pages/Student/AI/PredictionPuzzle.jsx:74-84 | the state changes as NextLevel specifies |
| LevelPuzzle.Puzzle.FlashExpired | frontend/src/pages/Student/AI/PredictionPuzzle.jsx:64 | only the flashed points disappear |
| ComfortRoleplay.Without | frontend/src/pages/Student/UVLS/Kids/ComfortRoleplay.jsx:68 | the phrase is dropped and every other pick kept, without repeats |
| ComfortRoleplay.TotalGood | frontend/src/pages/Student/UVLS/Kids/ComfortRoleplay.jsx:101 | the good situations are at most all results |
| ComfortRoleplay.Toggled | frontend/src/pages/Student/UVLS/Kids/ComfortRoleplay.jsx:66-72 | a picked phrase is dropped; another is added only while fewer than three are picked, and otherwise nothing changes |
| ComfortRoleplay.ValidatingCount | frontend/src/pages/Student/UVLS/Kids/ComfortRoleplay.jsx:75-79 | the validating picks are at most the situation's phrases |
| ComfortRoleplay.Confirmed | frontend/src/pages/Student/UVLS/Kids/ComfortRoleplay.jsx:74-109 | nothing unless three are picked; otherwise one result is appended, good iff at least 2 picks validate; the next situation starts empty, or after the third the result shows with three coins iff at least 2 went well |
| ComfortRoleplay.PassedWithCoins | frontend/src/pages/Student/UVLS/Kids/ComfortRoleplay.jsx:101-133 | at most three results; on the result, passing and the three coins coincide |
| ComfortRoleplay.Roleplay.constructor | frontend/src/pages/Student/UVLS/Kids/ComfortRoleplay.jsx:8-11 | the first situation, nothing picked |
| ComfortRoleplay.Roleplay.TogglePhrase | frontend/src/pages/Student/UVLS/Kids/ComfortRoleplay.jsx:66-72 | the state changes as Toggled specifies |
| ComfortRoleplay.Roleplay.Confirm | frontend/src/pages/Student/UVLS/Kids/ComfortRoleplay.jsx:74-109 | the state changes as Confirmed specifies |
| ComfortRoleplay.Roleplay.TryAgain | frontend/src/pages/Student/UVLS/Kids/ComfortRoleplay.jsx:111-118 | back to the initial state |
| PuzzleOfTrust.StartClicked | frontend/src/pages/Student/MoralValues/Kids/PuzzleOfTrust.jsx:29-31 | a value not yet joined (its button is disabled once joined) becomes the pending start, links unchanged |
| PuzzleOfTrust.EndClicked | frontend/src/pages/Student/MoralValues/Kids/PuzzleOfTrust.jsx:33-55 | nothing without a pending start or when the start or the outcome is already joined; otherwise the link is appended and the start cleared, and the second link shows the result |
| PuzzleOfTrust.CoinsForTheRightPairs | frontend/src/pages/Student/MoralValues/Kids/PuzzleOfTrust.jsx:44-77 | on the result, five coins iff Truth-Trust and Lie-Trouble are both linked, none otherwise |
| PuzzleOfTrust.Trust.constructor | frontend/src/pages/Student/MoralValues/Kids/PuzzleOfTrust.jsx:8-11 | no links, nothing pending |
| PuzzleOfTrust.Trust.StartClick | frontend/src/pages/Student/MoralValues/Kids/PuzzleOfTrust.jsx:29-31 | the state changes as StartClicked specifies |
| PuzzleOfTrust.Trust.EndClick | frontend/src/pages/Student/MoralValues/Kids/PuzzleOfTrust.jsx:33-55 | the state changes as EndClicked specifies |
| PuzzleOfTrust.Trust.TryAgain | frontend/src/pages/Student/MoralValues/Kids/PuzzleOfTrust.jsx:57-62 | back to the initial state |
| MiniJournal.PromptChanged | frontend/src/pages/Student/UVLS/Kids/MiniJournal.jsx:51-55 | the prompt changes and entry and sentence are cleared |
| MiniJournal.SentenceSelected | frontend/src/pages/Student/UVLS/Kids/MiniJournal.jsx:57-60 | the starter becomes both the sentence and the entry |
| MiniJournal.Typed | frontend/src/pages/Student/UVLS/Kids/MiniJournal.jsx:143-146 | the text becomes the entry and the sentence is cleared |
| MiniJournal.Submitted | frontend/src/pages/Student/UVLS/Kids/MiniJournal.jsx:62-70 | the result shows, with three coins, iff the entry has a non-whitespace character; otherwise nothing changes |
| MiniJournal.Journal.constructor | frontend/src/pages/Student/UVLS/Kids/MiniJournal.jsx:8-12 | the first prompt, empty entry |
| MiniJournal.Journal.ChangePrompt | frontend/src/pages/Student/UVLS/Kids/MiniJournal.jsx:51-55 | the state changes as PromptChanged specifies |
| MiniJournal.Journal.SelectSentence | frontend/src/pages/Student/UVLS/Kids/MiniJournal.jsx:57-60 | the state changes as SentenceSelected specifies |
| MiniJournal.Journal.Type | frontend/src/pages/Student/UVLS/Kids/MiniJournal.jsx:143-146 | the state changes as Typed specifies |
| MiniJournal.Journal.Submit | frontend/src/pages/Student/UVLS/Kids/MiniJournal.jsx:62-70 | the state changes as Submitted specifies |
| JournalOfGratitude.Edited | frontend/src/pages/Student/MoralValues/Kids/JournalOfGratitude.jsx:62-77 | the fields take the typed text, at most 50 and 100 characters as the inputs' maxLength allows, and the state stays valid |
| JournalOfGratitude.Submitted | frontend/src/pages/Student/MoralValues/Kids/JournalOfGratitude.jsx:16-22 | the result shows, with five coins, iff the trimmed person has at least 3 characters and the trimmed reason at least 5; otherwise nothing changes |
| JournalOfGratitude.FullEntry | frontend/src/pages/Student/MoralValues/Kids/JournalOfGratitude.jsx:28 | the text printed between quotes in the preview and the result is "Today I thanked ", the person, " for ", the reason |
| JournalOfGratitude.PaddedNameAccepted | frontend/src/pages/Student/MoralValues/Kids/JournalOfGratitude.jsx:17-28 | an accepted entry stays accepted with a space before the name, and the untrimmed preview then shows that space |
| JournalOfGratitude.Gratitude.constructor | frontend/src/pages/Student/MoralValues/Kids/JournalOfGratitude.jsx:8-11 | empty fields, no result |
| JournalOfGratitude.Gratitude.Edit | frontend/src/pages/Student/MoralValues/Kids/JournalOfGratitude.jsx:62-77 | the state changes as Edited specifies |
| JournalOfGratitude.Gratitude.Submit | frontend/src/pages/Student/MoralValues/Kids/JournalOfGratitude.jsx:16-22 | the state changes as Submitted specifies |
| JournalOfRespect.Edited | frontend/src/pages/Student/CRGC/Kids/JournalOfRespect.jsx:57 | the entry takes the typed text |
| JournalOfRespect.Submitted | frontend/src/pages/Student/CRGC/Kids/JournalOfRespect.jsx:13-19 | the result shows iff the trimmed entry has at least 5 characters; otherwise nothing changes |
| JournalOfRespect.Shown | frontend/src/pages/Student/CRGC/Kids/JournalOfRespect.jsx:88 | the text printed between the literal quotes is "I showed respect today by " followed by the entry as typed |
| JournalOfRespect.AcceptedShownUntrimmed | frontend/src/pages/Student/CRGC/Kids/JournalOfRespect.jsx:13-19 | an accepted entry with a blank in front is accepted too, and the sentence ends with the entry as typed, blank included |
| JournalOfRespect.BlankNeverAccepted | frontend/src/pages/Student/CRGC/Kids/JournalOfRespect.jsx:68 | an all-whitespace entry keeps submit disabled |
| JournalOfRespect.Respect.constructor | frontend/src/pages/Student/CRGC/Kids/JournalOfRespect.jsx:8-10 | empty entry, no result |
| JournalOfRespect.Respect.Edit | frontend/src/pages/Student/CRGC/Kids/JournalOfRespect.jsx:57 | the state changes as Edited specifies |
| JournalOfRespect.Respect.Submit | frontend/src/pages/Student/CRGC/Kids/JournalOfRespect.jsx:13-19 | the state changes as Submitted specifies |
| PuzzleRespectMatch.CorrectCount | frontend/src/pages/Student/CRGC/Kids/PuzzleRespectMatch.jsx:56 | at most three, and three iff every person is matched rightly |
| PuzzleRespectMatch.Matched | frontend/src/pages/Student/CRGC/Kids/PuzzleRespectMatch.jsx:25-27 | the person's action is set and every other entry is kept |
| PuzzleRespectMatch.Checked | frontend/src/pages/Student/CRGC/Kids/PuzzleRespectMatch.jsx:29-42 | the result shows with the matches kept, and five coins iff at least 2 are right |
| PuzzleRespectMatch.NextWithCoins | frontend/src/pages/Student/CRGC/Kids/PuzzleRespectMatch.jsx:37-64 | next is enabled iff the coins are paid; all right implies all matched |
| PuzzleRespectMatch.RespectMatch.constructor | frontend/src/pages/Student/CRGC/Kids/PuzzleRespectMatch.jsx:8-10 | no matches, no result |
| PuzzleRespectMatch.RespectMatch.Match | frontend/src/pages/Student/CRGC/Kids/PuzzleRespectMatch.jsx:25-27 | the state changes as Matched specifies |
| PuzzleRespectMatch.RespectMatch.Check | frontend/src/pages/Student/CRGC/Kids/PuzzleRespectMatch.jsx:29-44 | the button, enabled only once everyone has an action, changes the state as Checked specifies |
| PuzzleRespectMatch.RespectMatch.TryAgain | frontend/src/pages/Student/CRGC/Kids/PuzzleRespectMatch.jsx:46-50 | back to the initial state |
| PuzzleInclusionActs.Matched | frontend/src/pages/Student/CRGC/Teen/PuzzleInclusionActs.jsx:21-23 | the pair's choice is set and every other entry is kept |
| PuzzleInclusionActs.Submitted | frontend/src/pages/Student/CRGC/Teen/PuzzleInclusionActs.jsx:25-34 | the feedback shows with the matches kept, and five coins iff every pair is right |
| PuzzleInclusionActs.SubmitEnabledIffAllTouched | frontend/src/pages/Student/CRGC/Teen/PuzzleInclusionActs.jsx:100 | submit is enabled iff every pair has an entry; next is enabled iff all are right |
| PuzzleInclusionActs.EmptyChoiceStillSubmits | frontend/src/pages/Student/CRGC/Teen/PuzzleInclusionActs.jsx:86-100 | a pair set back to the empty option still counts as touched, so submit is enabled and earns nothing |
| PuzzleInclusionActs.InclusionActs.constructor | frontend/src/pages/Student/CRGC/Teen/PuzzleInclusionActs.jsx:8-10 | no matches, no feedback |
| PuzzleInclusionActs.InclusionActs.Match | frontend/src/pages/Student/CRGC/Teen/PuzzleInclusionActs.jsx:21-23 | the state changes as Matched specifies |
| PuzzleInclusionActs.InclusionActs.Submit | frontend/src/pages/Student/CRGC/Teen/PuzzleInclusionActs.jsx:25-100 | the button, enabled only once every act has an entry, changes the state as Submitted specifies |
| PuzzleInclusionActs.InclusionActs.TryAgain | frontend/src/pages/Student/CRGC/Teen/PuzzleInclusionActs.jsx:36-40 | back to the initial state |
| Common.RoundDiv | frontend/src/pages/Student/DCOS/Kids/StrongPasswordReflex.jsx:76 | `Math.round(t / n)`: the nearest integer, halves rounded up |
| Common.TrimEmpty | frontend/src/pages/Student/UVLS/Kids/MiniJournal.jsx:63 | `trim()` is empty iff every character is whitespace |
| Common.ToLower | backend/routes/parentRoutes.js:32 | lower-casing keeps the length and maps each character |
| Sorting.SortDesc | backend/routes/parentRoutes.js:331 | sorted newest first and a permutation of the input |
| Sorting.TopOfSorted | backend/routes/parentRoutes.js:331-332 | the first n after sorting are sorted, drawn from the input, and none left out is larger |
| Sorting.FirstMaxIndex | backend/routes/parentRoutes.js:400-402 | the first position holding the largest key: nothing is larger, and everything before it is smaller |
| Sorting.SortDescHead | backend/routes/parentRoutes.js:400-402 | the stable sort puts first the earliest element with the largest key |

## Left out

- Database access: queries, `populate`, aggregation and concurrent requests. Each route is one atomic step over in-memory collections.
- The socket plumbing around the socket events, and the chat socket handler. Neither is part of this model.
- JWT verification: a function parameter returning a user id or nothing. Id casting in `findById` beyond the 24-hex-digit test of unlink is not modelled.
- Clocks and dates are integer parameters (milliseconds, or calendar triples). Locale date formatting and date-string parsing are not modelled.
- Floating point: averages and percentages are exact rationals or integer inequalities. `toFixed(1)` is rounded to tenths as integers.
- Amounts are integers. Fractional or string amounts in request bodies are not modelled.
- Case mapping covers ASCII only.
- `trim().length` counts characters, where JavaScript counts UTF-16 code units.
- Game delays (`setTimeout`) take effect immediately. Clicks made during those pauses are not modelled. This affects ComfortRoleplay's confirm, ReflexTeenInclusion's choice, and the reflex and vision games' choices.
- Toasts, confetti, sounds, animations and transient feedback text (for example ReflexTeenInclusion's "Correct!" message and the quizzes' per-answer feedback) are not modelled.
- Randomness is not used by the modelled operations.
- CsrImpact.ImpactOf: the values and ai modules are left at zero progress, as the route leaves them.
- CsrImpact.Trends: quarter captions are the corrected labels Q1-Q4. The route's own labels, which reach Q0 and below for every quarter series, are modelled by CsrImpact.QuarterLabelAsWritten and not used in the series.
- RoundGame.Rounds.Choose: SelfDrivingCar runs the corrected step, counting the last right choice once. The page's double count is modelled by RoundGame.SelfDrivingChosenAsWritten.
- PatternMusicGame.PatternGame.Advance: runs the corrected step, counting the last rhythm once. The page's second increment is modelled by PatternMusicGame.AdvancedAsWritten.
- CsrImpact.Trends: the students and items counts of each window are function parameters. The database counts behind them are left out.
- The `/regional`, reports and other CSR routes beyond impact and trends are not part of this model.
- The parent routes other than link-child, unlink and child analytics are not part of this model. The same goes for `teacherIds`, which the routes create but never read.
- StudentDashboard.LoadedStats: the contract states only the defaulting of falsy fields. The absent-`stats` branch (no change) is a caller's choice and is not a separate member.
- StudentDashboard.DashboardStats.LevelUp: events with missing fields are not modelled.
- SortingColors' end-of-game alert is not modelled; only its restart is.
- ComfortRoleplay.ValidatingCount: the bound of at most three validating picks is not proved, only at most five.
- MiniJournal has no try-again in the page, and none is modelled.
- The admin approval routes, the school admin dashboard and the badge page are context only and are not modelled.

## Findings

| source | as written | input that shows it | evidently intended | confidence | as-written member | corrected member |
|---|---|---|---|---|---|---|
| frontend/src/pages/Student/AiForAll/Kids/PatternMusicGame.jsx:34-47 | the tap that completes the last rhythm correctly adds a point, and the final step adds it again, while the coin test counts it once | three correct rhythms including the last: the score shows 4, no coins are paid, yet next is enabled; four correct including the last shows 5 | each rhythm counts once, so score ≥ 4 and the five coins coincide | not executed | PatternMusicGame.AdvancedAsWritten, PatternMusicGame.PatternDoubleCount | PatternMusicGame.Advanced |
| frontend/src/pages/Student/AiForAll/Kids/SelfDrivingCar.jsx:31-43 | a right choice in the last round is added by the handler and added again by the final `setScore` | five right choices including the last: the score shows 6 with no coins, and next is enabled; eight right shows 9 of 8 | each round counts once, so score ≥ 6 and the five coins coincide | not executed | RoundGame.SelfDrivingChosenAsWritten, RoundGame.SelfDrivingDoubleCount | RoundGame.Chosen |
| backend/routes/csrRoutes.js:181 | the quarter label is `Q` followed by ceil((month − 3i + 1) / 3) with no wrap into the previous year | in February (month 1), the second-newest entry is labelled "Q0" and the one before "Q-1" | the label of the quarter of that window, Q1 to Q4 | not executed | CsrImpact.QuarterLabelAsWritten, CsrImpact.QuarterLabelZero | CsrImpact.QuarterLabel |
