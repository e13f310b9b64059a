# Elevare progress, XP and gamification core in Dafny

Elevare is a learning platform. Learners open lessons, take quizzes and
generate AI study resources, and every one of these events feeds a
per-user record of progress. This project models the part of Elevare
that turns those events into cumulative state, and proves properties of
that model:

- **Backend ledger.** The progress ledger on the user document keeps one
  entry per content id (`User.updateProgress`). The learning statistics
  are recomputed from that ledger. The AI-interaction history is capped
  at 50.
- **Backend routes.** The progress routes write to the ledger
  (`/update`, `/complete`, `/ai-interaction`, `GET /user/:userId`).
- **Catalogue and content progress.** The content catalogue has its enum
  fields and defaults. The content controller's listing filter, its
  per-user progress merge and its completion reward are modelled too.
- **AI content route.** The route that generates AI content saves the
  user's progress safely (never throwing).
- **Browser side.**
  - The account reducer and `earnXP`: counters, level, and XP inside the
    level.
  - The gamification context: the badge catalogue and its evaluation,
    daily challenges, the leaderboard, and activity recording with its
    night, morning and comeback context.
  - The notification centre and the bell's unread badge and "time ago"
    label.
  - Analytics: engagement tracking, learning patterns and
    recommendations.
  - The quiz component, the lesson viewer (its timer, its interval and
    its completion rewards) and the dashboard's level figures.

Each source file is one Dafny module. Pure logic is written as datatypes,
functions and lemmas. Components and stores whose state the source
updates are classes:
- `UserModel.UserDocument`, `ContentController.ProgressStore`
- `Gamification.GamificationStore`, `Notifications.NotificationCenter`
- `Analytics.AnalyticsStore`, `Auth.AuthProvider`
- `Quiz.QuizComponent`, `ContentViewer.ViewerComponent`

Each class method is proved equal to a specification function on a
snapshot of its state, and the lemmas are stated about those functions.
The methods follow the code as written, including the defects listed
under "## Findings". The corrected behaviour for each defect is a
separate function, named as such, with its own lemmas:
- `ContentController.StepCorrected` beside `StepAsWritten`.
- `Gamification.Context` beside `ContextAsWritten`.
- `Quiz.TimerEffect` beside `TimerEffectAsWritten`.
- `ContentViewer.Tick` beside `TickAsWritten`.
- `ContentController.GetContentIntended` beside `GetContent`.

JavaScript semantics are written out wherever they decide a result:
- `x || d` defaults: a missing value, zero or an empty string all take
  the default.
- `%` truncates toward zero (`Common.JsRem`).
- `Math.round` rounds halves up (`Common.RoundHalfUp`).
- Adding a missing counter gives `NaN` (`Auth.Num`).
- `String.prototype.trim` is `Common.Trim`.
- `[...new Set(...)]` is `Common.Dedup`.
- `slice(-n)` is `Common.LastN`.

Numbers that JavaScript computes as floating point (percentages,
averages) are reals.

Clocks, `Math.random`, fresh ids and the browser's permission answer are
not read by the model. They are parameters of the operations that use
them (`now`, `pick`, `suffix`, `freshId`, `permissionGranted`).

Where the general design description of the platform and the code
disagree, the model follows the code:
- `User.updateProgress` replaces `timeSpent` instead of adding to it
  (`UserModel.TimeSpentNotAccumulated`).
- An update without a status turns a completed entry back into "in
  progress" (`ProgressRoutes.UpdateWithoutStatusUncompletes`).
- `learningStats.totalXP` is the sum of every entry's `score`, not of
  the XP of completed entries (`UserModel.Recompute`).
- An out-of-range completion percentage makes the save fail rather than
  being clamped.
- No streak is ever computed. `earnXP` adds one to `currentStreak` on
  every award, and the analytics session streak stays 0.
- Badge XP goes through `earnXP` like any other award, so it also adds
  one to `modulesCompleted`.

## Model

| member | source | states |
|---|---|---|
| Common.OrDefault | backend/src/routes/progress.js:162-168 | `x \|\| d` on a number: a given non-zero value is kept, and a missing value or a zero gives the default |
| Common.OrText | backend/src/routes/aiContent.js:220-223 | `s \|\| d` on a string: the given string exactly when it is present and non-empty, otherwise the default |
| Common.JsRem | web-app/src/components/dashboard/Dashboard.jsx:46 | JavaScript `%`: the remainder differs from the dividend by a multiple of b and takes the dividend's sign, so it lies in 0..b-1 for a non-negative dividend and in -(b-1)..0 for a negative one |
| Common.RoundHalfUp | web-app/src/components/quiz/Quiz.jsx:118 | `Math.round`: the result is within half a unit of x, with halves going up |
| Common.Level | web-app/src/context/AuthContext.jsx:149-150 | `Math.floor(xp / 100) + 1`: level l covers exactly the totals from (l-1)*100 to l*100-1, and is at least 1 for a non-negative total |
| Common.Decimal | web-app/src/components/notifications/NotificationBell.jsx:36-38 | the decimal text of a count: non-empty digits, no leading zero, one digit exactly below 10 |
| Common.DecimalRoundTrip | web-app/src/components/notifications/NotificationBell.jsx:36-38 | reading the decimal text back gives the number it was made from |
| Common.Dedup | web-app/src/context/AnalyticsContext.jsx:60 | `[...new Set(s)]`: duplicate-free, holding exactly the elements of s, never longer than s |
| Common.DedupFirstOccurrenceOrder | web-app/src/context/AnalyticsContext.jsx:60 | a Set lists its elements in the order of their first occurrence in s |
| Common.DedupOfDistinctAppend | web-app/src/context/AnalyticsContext.jsx:60 | adding an id to a duplicate-free list through a Set keeps the list when the id is present and appends it once otherwise |
| Common.DedupOfDistinct | web-app/src/context/AnalyticsContext.jsx:60 | a Set over a duplicate-free list gives the list back unchanged and in order |
| Common.LastN | backend/src/models/User.js:220-223 | `slice(-n)`: the last n elements, or all of them when there are fewer, as a suffix of the input |
| Common.SortDesc | web-app/src/context/GamificationContext.jsx:256-257 | sorting by a key, highest first: the result is ordered and is a permutation of the input |
| Common.SortDescOfSorted | web-app/src/context/GamificationContext.jsx:256-257 | a list already highest first is returned unchanged, ties in their input order |
| Common.Trim | backend/src/routes/aiContent.js:30 | `trim()`: the result is the slice of the input that starts after the leading white space, and everything after it is white space; it is empty or starts and ends with a non-space |
| Common.Filter | web-app/src/context/GamificationContext.jsx:231-233 | `filter`: every kept element passes the test, every passing element is kept as often as it occurs, and the kept elements keep their order |
| UserModel.IndexOf | backend/src/models/User.js:158-160 | `findIndex` by content id: the first entry whose id is present and equal, or -1 when no entry matches |
| UserModel.Upsert | backend/src/models/User.js:162-175 | an existing entry is overwritten in place and all others are kept; without one, a fresh entry is appended at the end |
| UserModel.TouchedOverwrites | backend/src/models/User.js:162-175 | `Object.assign` semantics: each field in the patch replaces the stored one and each absent field keeps the stored or default value; `lastAccessedAt` is always now |
| UserModel.TimeSpentNotAccumulated | backend/src/models/User.js:162-166 | two updates of the same content with a time leave only the second time, not the sum |
| UserModel.FoundAfterUpsert | backend/src/models/User.js:158-175 | after an update, looking the content up finds the entry the update wrote |
| UserModel.UpsertKeepsKeysUnique | backend/src/models/User.js:158-175 | the ledger never gets two entries for one content id |
| UserModel.UpsertKeepsValid | backend/src/models/User.js:5-47 | when the written entry passes the schema checks, the whole ledger still passes them |
| UserModel.CompletedCount | backend/src/models/User.js:198 | the number of completed entries never exceeds the number of entries |
| UserModel.ComputeStats | backend/src/models/User.js:197-207 | the loop computes the recomputed statistics: modules completed are at most the entries, and the average score times the entry count equals the total XP |
| UserModel.SameStatusAndScore | backend/src/models/User.js:198-200 | the completion count and the score total depend only on each entry's status and score |
| UserModel.AppendAggregates | backend/src/models/User.js:167-175 | appending an entry adds exactly its completion, score and time to the totals |
| UserModel.ReplaceAggregates | backend/src/models/User.js:162-166 | overwriting an entry swaps its contribution to each total for the new one's |
| UserModel.UpsertAggregates | backend/src/models/User.js:155-181 | after an upsert, each statistic differs from the old one only by the touched entry's contribution |
| UserModel.ReapplyKeepsCountAndXP | backend/src/models/User.js:155-207 | re-sending the same status and score leaves modules completed and total XP as they were |
| UserModel.NewInteraction | backend/src/models/User.js:211-218 | topic, subject and difficulty are copied and the time is now; a zero or missing rating is stored as null, otherwise the rating; a missing feedback is empty text, otherwise the feedback |
| UserModel.UserDocument.constructor | backend/src/models/User.js:115-135 | a new user has an empty ledger, default statistics and no AI interactions |
| UserModel.UserDocument.FindProgressIndex | backend/src/models/User.js:158-160 | the search loop finds the same index as `IndexOf` |
| UserModel.UserDocument.UpdateProgress | backend/src/models/User.js:155-194 | the save succeeds exactly when the written entry is valid; then the ledger is the upsert and the statistics are recomputed from it; a rejected save changes nothing |
| UserModel.UserDocument.UpdateLearningStats | backend/src/models/User.js:197-207 | the statistics become the ones recomputed from the current ledger |
| UserModel.UserDocument.AddAIInteraction | backend/src/models/User.js:210-226 | the interaction is appended and only the newest 50 are kept, the new one last |
| ProgressModel.NewRecord | backend/src/models/Progress.js:3-44 | a new record is not started, with zero percentage, time, score and XP, no completion date, and accessed now |
| ProgressModel.NewRecordValid | backend/src/models/Progress.js:4-13 | a new record passes validation exactly when both the user and the content are given |
| ProgressModel.PutKeepsCollectionValid | backend/src/models/Progress.js:47 | the unique (user, content) index: storing a valid record keeps the collection valid and adds a key only for a new pair |
| ContentModel.ParseCategory | backend/src/models/Content.js:12-16 | accepts exactly the category spellings of the enum, and inverts their names |
| ContentModel.ParseGrade | backend/src/models/Content.js:17-21 | accepts exactly the grade spellings, and inverts their names |
| ContentModel.ParseStream | backend/src/models/Content.js:22-26 | accepts exactly the stream spellings, and inverts their names |
| ContentModel.ParseType | backend/src/models/Content.js:27-31 | accepts exactly the content-type spellings, and inverts their names |
| ContentModel.ParseDifficulty | backend/src/models/Content.js:38-42 | accepts exactly the difficulty spellings, and inverts their names |
| ContentModel.CreateContent | backend/src/models/Content.js:3-59 | creation succeeds exactly when the required fields are present and every enum value is allowed; defaults are filled in for the rest |
| ContentModel.MinimalDraftDefaults | backend/src/models/Content.js:22-52 | a draft with only the required fields gets stream "all", difficulty "beginner", reward 10, and is published |
| ContentController.BuildFilterAsWritten | backend/src/controllers/contentController.js:10-27 | the filter as written: published only, and one `$or` group holding the grade alternatives plus the stream alternatives when a stream is asked for |
| ContentController.AsWrittenSelectsGradeOrStream | backend/src/controllers/contentController.js:10-23 | that filter selects a published item of the category exactly when its grade or its stream matches; both are not required |
| ContentController.AsWrittenIgnoresGrade | backend/src/controllers/contentController.js:10-23 | a 12th-grade item open to all streams is listed for a 10th-grade science request, against the intended selection |
| ContentController.BuildFilter | backend/src/controllers/contentController.js:10-27 | corrected filter: the grade alternatives and the stream alternatives are separate groups that must both hold |
| ContentController.BuildFilterSelectsIntended | backend/src/controllers/contentController.js:10-27 | the corrected filter selects an item exactly when it is published and matches the grade, the stream and the category |
| ContentController.Matches | backend/src/controllers/contentController.js:29 | `find`: every match satisfies the filter, every catalogue item that satisfies it is a match as often as it occurs, and nothing else is |
| ContentController.FindRecord | backend/src/controllers/contentController.js:42 | finds a record for the content when there is one, and returns none exactly when none exists |
| ContentController.PairWithProgress | backend/src/controllers/contentController.js:41-47 | each item is paired, in order, with its own progress record or with none when it has no record |
| ContentController.Limit | backend/src/controllers/contentController.js:30 | `limit(n)`: the first n items, where a limit of 0 means no limit |
| ContentController.GetContent | backend/src/controllers/contentController.js:5-57 | as written: a newest-first page of the items the built filter matches, which are the published items of the category whose grade or stream fits; as many as the limit allows, 20 when the query gives none, none left out newer than the last listed, each with the caller's record or none |
| ContentController.GetContentIntended | backend/src/controllers/contentController.js:5-57 | corrected: the same page, drawn from the items the request intends (grade and stream both fit) |
| ContentController.PageOf | backend/src/controllers/contentController.js:29-47 | sort newest first, cut to the limit, pair with progress: the result is a page of the matches in the sense of `IsPage` |
| ContentController.PageFromSelection | backend/src/controllers/contentController.js:29-31 | a cut of the sorted matches is drawn from them, is newest first, and leaves out nothing newer than its last item |
| ContentController.SortedPrefix | backend/src/controllers/contentController.js:29-31 | the first n items of a newest-first list are newest first, and the items after them are no newer than the last of them |
| ContentController.GetContentById | backend/src/controllers/contentController.js:60-86 | not found exactly when the id is unknown; otherwise the item with the user's own record |
| ContentController.Merge | backend/src/controllers/contentController.js:112-126 | time is added; percentage and score are replaced when given; status is replaced only by a non-empty value; access time is now; identity, XP and completion date are kept |
| ContentController.StepAsWritten | backend/src/controllers/contentController.js:128-140 | as written: the reward is credited whenever it is due, even when the save is then rejected and the record stays as it was |
| ContentController.StepCorrected | backend/src/controllers/contentController.js:128-140 | corrected: the reward is credited only when the completed record is actually saved |
| ContentController.AsWrittenDoubleAward | backend/src/controllers/contentController.js:128-140 | sending a completion with percentage 150 twice credits the reward twice and saves nothing |
| ContentController.ReplayAwardsOnce | backend/src/controllers/contentController.js:128-140 | corrected, any sequence of updates credits the reward at most once, and a set completion date never moves |
| ContentController.SecondCompletionAwardsNothing | backend/src/controllers/contentController.js:129 | once a completion date is set, further updates credit nothing and keep the date and XP, in either order of credit and save |
| ContentController.AsWrittenAgreesWhenSaved | backend/src/controllers/contentController.js:128-140 | the two orders save alike; when the save succeeds they are the same step, and when it fails the as-written order has credited the due reward regardless |
| ContentController.ProgressStore.Current | backend/src/controllers/contentController.js:100-110 | the stored record for the pair, or a fresh not-started record when there is none |
| ContentController.ProgressStore.UpdateProgress | backend/src/controllers/contentController.js:89-149 | unknown content is 404 and changes nothing; otherwise the store takes the as-written step: the due reward is added to the user's counter, then the record is written if valid (Saved) or left as it was (ServerError) |
| ProgressRoutes.UpdatePatch | backend/src/routes/progress.js:33-40 | every update writes the given status or `in_progress` when it is missing or empty, and the given percentage, score and time or 0 when missing or zero; no completion date; the AI flag from the request's AI data, which is stored when given |
| ProgressRoutes.CompletePatch | backend/src/routes/progress.js:162-168 | completion writes status completed, 100 percent, score `finalScore \|\| 25`, time `totalTimeSpent \|\| 30` and completion time now |
| ProgressRoutes.View | backend/src/routes/progress.js:79-87 | the response carries the whole ledger and statistics, the last 10 AI interactions, and the statistics' total XP |
| ProgressRoutes.UpdateSavesIff | backend/src/routes/progress.js:13-40 | an update is saved exactly when its status is missing or allowed and its percentage, read as 0 when missing, is within 0..100 |
| ProgressRoutes.UpdateResetsOmittedFields | backend/src/routes/progress.js:34-37 | an update without status, score, time or percentage resets them to in progress, 0, 0 and 0 |
| ProgressRoutes.UpdateWithoutStatusUncompletes | backend/src/routes/progress.js:33-40 | an update without a status or score on a completed entry lowers the completed count by one and total XP by that entry's score |
| ProgressRoutes.CompleteStoresReportedXP | backend/src/routes/progress.js:162-173 | the stored score is the XP the response reports |
| ProgressRoutes.CompleteXPDelta | backend/src/routes/progress.js:162-168 | completing a content changes total XP by the new score minus the score it replaces |
| ProgressRoutes.CompleteTwiceIsStable | backend/src/routes/progress.js:162-168 | completing the same content twice with the same request leaves count and XP as after the first |
| ProgressRoutes.PostUpdate | backend/src/routes/progress.js:7-62 | missing ids give 400, an unknown user 404, both without change; otherwise the user's ledger and statistics are updated through `updateProgress` when the entry validates and kept otherwise, the user's AI interactions and every other user stay unchanged |
| ProgressRoutes.PostComplete | backend/src/routes/progress.js:142-187 | the same guards; otherwise the completion patch is applied and the stored score is reported as XP earned, the user's AI interactions and every other user unchanged |
| ProgressRoutes.PostInteraction | backend/src/routes/progress.js:99-139 | a missing user id gives 400 and an unknown user 404; otherwise the interaction is appended, keeping the newest 50 |
| ProgressRoutes.GetUserProgress | backend/src/routes/progress.js:66-96 | 404 for an unknown user; otherwise the view of that user's state |
| Auth.Add | web-app/src/context/AuthContext.jsx:139-141 | number addition: an integer exactly when both operands are, and NaN otherwise |
| Auth.Get | web-app/src/context/AuthContext.jsx:139-141 | reading a missing counter gives NaN |
| Auth.InitialState | web-app/src/context/AuthContext.jsx:56-62 | the provider starts unauthenticated, with no user, not loading, no error, and the stored token |
| Auth.WithProgress | web-app/src/context/AuthContext.jsx:12-19 | a signed-in user always has progress: existing progress is kept, and missing progress becomes zero counters |
| Auth.Spread | web-app/src/context/AuthContext.jsx:39-42 | object spread: the payload's keys win, other keys are kept, and the keys are the union |
| Auth.Reduce | web-app/src/context/AuthContext.jsx:6-53 | the reducer throws exactly for a progress update without a user |
| Auth.LoginSuccessAuthenticates | web-app/src/context/AuthContext.jsx:10-29 | login success authenticates, stores the user with progress and the token, and clears loading and error |
| Auth.LoginErrorRecords | web-app/src/context/AuthContext.jsx:30-31 | a login error keeps the user out and records the message |
| Auth.LogoutClears | web-app/src/context/AuthContext.jsx:32-35 | logout clears the user, the token and both stored copies |
| Auth.UpdateProgressMerges | web-app/src/context/AuthContext.jsx:36-49 | a progress update merges the payload into the user's progress and mirrors the user to storage |
| Auth.UnknownKeepsState | web-app/src/context/AuthContext.jsx:50-51 | an unknown action leaves the state and storage alone |
| Auth.StoredUserMirrorsState | web-app/src/context/AuthContext.jsx:6-53 | after login, progress update or logout, the stored user equals the state's user |
| Auth.EarnPatch | web-app/src/context/AuthContext.jsx:130-142 | `earnXP` writes exactly the three counters: XP plus the amount, modules and streak plus one, counted from zero when there is no progress |
| Auth.XPOf | web-app/src/context/AuthContext.jsx:159 | without a user or progress, the total reads as NaN |
| Auth.GetUserLevel | web-app/src/context/AuthContext.jsx:158-161 | level 1 for a falsy total, otherwise the level of the total |
| Auth.GetLevelProgress | web-app/src/context/AuthContext.jsx:164-167 | 0 for a falsy total, otherwise the truncating remainder of the total by 100 |
| Auth.LevelAndProgressRecompose | web-app/src/context/AuthContext.jsx:158-167 | for a non-negative total, level and in-level XP are in range and recompose the total |
| Auth.AuthProvider.constructor | web-app/src/context/AuthContext.jsx:56-62 | the provider starts in the initial state over the given storage |
| Auth.AuthProvider.Dispatch | web-app/src/context/AuthContext.jsx:6-53 | dispatch takes the reducer's step, and leaves everything unchanged when the reducer throws |
| Auth.AuthProvider.EarnXP | web-app/src/context/AuthContext.jsx:130-155 | without a user nothing happens; otherwise the earn patch goes through the reducer and the user's three counters take the patch's values |
| Auth.EarnXPCounters | web-app/src/context/AuthContext.jsx:138-154 | for integer counters, XP grows by the amount and the other two by one, and a non-negative amount never lowers the level |
| Auth.MissingCounterPoisons | web-app/src/context/AuthContext.jsx:138-142 | a missing XP counter becomes NaN and stays NaN on the next award |
| Auth.LevelMonotone | web-app/src/context/AuthContext.jsx:149-154 | a larger total never has a lower level |
| Dashboard.UserXP | web-app/src/components/dashboard/Dashboard.jsx:44 | `totalXP \|\| 0`: a truthy total is used as is, anything else reads 0 |
| Dashboard.ViewOf | web-app/src/components/dashboard/Dashboard.jsx:45-47 | for a non-negative total: level at least 1, in-level XP within 0..99, XP in the level and XP still needed sum to 100, and level and in-level XP recompose the total |
| Dashboard.NegativeTotalOutOfRange | web-app/src/components/dashboard/Dashboard.jsx:45-47 | a total of -1 shows level 0, -1 XP in the level and 101 to go |
| Dashboard.AgreesWithProvider | web-app/src/components/dashboard/Dashboard.jsx:44-46 | the dashboard shows the same level and in-level XP as the account provider |
| Dashboard.QuizBonus | web-app/src/components/dashboard/Dashboard.jsx:34 | one XP per ten percent, rounded, between 0 and 10 for a percentage in range |
| Dashboard.BonusMatchesQuizXP | web-app/src/components/dashboard/Dashboard.jsx:34 | for a quiz's percentage, the dashboard bonus equals the XP the quiz awards itself |
| Dashboard.QuizCreditedOnce | web-app/src/components/dashboard/Dashboard.jsx:29-41 | the quiz and the dashboard award the same amount from the same rendered user, so the second update rewrites the first and the quiz is credited once |
| Dashboard.NextAchievementMessage | web-app/src/components/dashboard/Dashboard.jsx:311-313 | the message for below 50 XP, for 50 to 99, and for 100 and more |
| Dashboard.Medal | web-app/src/components/dashboard/Dashboard.jsx:317-322 | bronze, silver or gold exactly on the same three XP bands |
| Dashboard.MedalMonotone | web-app/src/components/dashboard/Dashboard.jsx:317-322 | the medal never goes down as XP grows |
| Dashboard.MessageMatchesMedal | web-app/src/components/dashboard/Dashboard.jsx:311-322 | two totals share a medal exactly when they share a message |
| Gamification.GetUserStats | web-app/src/context/GamificationContext.jsx:216-225 | course count (from `modulesCompleted`), XP and streak are the user's progress values and the other three the stored counters, each 0 when missing |
| Gamification.Selected | web-app/src/context/GamificationContext.jsx:133-193 | the catalogue badges not yet held whose rule holds for the action, the statistics and the event context, and all of them |
| Gamification.NewlyEarned | web-app/src/context/GamificationContext.jsx:127-213 | the selected badges, each stamped with the evaluation time |
| Gamification.SelectedInCatalogueOrder | web-app/src/context/GamificationContext.jsx:133-193 | new badges come in catalogue order |
| Gamification.SelectedDistinct | web-app/src/context/GamificationContext.jsx:133-193 | from a catalogue with distinct ids, no badge is awarded twice in one evaluation |
| Gamification.CatalogueIdsDistinct | web-app/src/context/GamificationContext.jsx:23-114 | the badge catalogue's ids are distinct |
| Gamification.ThresholdBadgeIff | web-app/src/context/GamificationContext.jsx:140-165 | a counter badge not yet held is awarded exactly when its statistic reaches the requirement |
| Gamification.EventBadgesNeedCourseCompletion | web-app/src/context/GamificationContext.jsx:147-184 | an action other than a course completion can earn only counter badges |
| Gamification.BadgeGrants | web-app/src/context/GamificationContext.jsx:201-209 | one deferred XP grant per new badge, of that badge's XP, badge i after i times 2000 ms |
| Gamification.Schedule | web-app/src/context/GamificationContext.jsx:330-336 | the badge timers and the challenge timer (1000 ms) listed in firing order, exactly those grants and no others |
| Gamification.EvaluateBadges | web-app/src/context/GamificationContext.jsx:133-193 | the loop over the catalogue yields exactly the newly earned badges |
| Gamification.ChallengesStartOk | web-app/src/context/GamificationContext.jsx:265-271 | every daily challenge starts at progress 0, below its positive target, and not completed |
| Gamification.NextProgress | web-app/src/context/GamificationContext.jsx:293-319 | an action that does not count leaves progress as it is; one that counts adds one (courses, quiz scores of 80 or more) or the minutes (study time), up to the target, or sets the target (perfect quiz, new category) |
| Gamification.AdvanceChallenge | web-app/src/context/GamificationContext.jsx:287-323 | a completed challenge is left alone; otherwise progress becomes the next progress, nothing else changes but completion, which holds exactly when the target is reached |
| Gamification.CourseCompletionsAdvance | web-app/src/context/GamificationContext.jsx:293-298 | n course completions move a courses challenge n steps towards its target, stopping there, and complete it exactly when they reach it |
| Gamification.ProgressMonotone | web-app/src/context/GamificationContext.jsx:293-319 | progress never decreases |
| Gamification.RewardFiresOnce | web-app/src/context/GamificationContext.jsx:321-337 | over any sequence of actions the reward is paid at most once, and a completed challenge never changes |
| Gamification.DailyChallengeFor | web-app/src/context/GamificationContext.jsx:264-284 | the stored challenge of the day when there is one, otherwise the picked one, fresh |
| Gamification.LeaderboardRows | web-app/src/context/GamificationContext.jsx:247-253 | five rows, the fourth being the user with their XP, level and badge count |
| Gamification.Leaderboard | web-app/src/context/GamificationContext.jsx:245-261 | the rows sorted by XP, highest first, ranked 1 to n, and a permutation of the input rows |
| Gamification.UserOnLeaderboardOnce | web-app/src/context/GamificationContext.jsx:247-258 | the user appears on the ranked leaderboard exactly once |
| Gamification.TodayCompletions | web-app/src/context/GamificationContext.jsx:228-234 | the number of logged activities that are course completions on the given day |
| Gamification.ContextAsWritten | web-app/src/context/GamificationContext.jsx:341-373 | as written, the comeback gap is measured after the last learning date has been set to today |
| Gamification.Context | web-app/src/context/GamificationContext.jsx:341-373 | corrected: the gap is measured from the previous learning date, and the day count includes the current event |
| Gamification.SameDayGap | web-app/src/context/GamificationContext.jsx:178-184 | a gap measured from today's own date is always less than a day |
| Gamification.AsWrittenComebackNever | web-app/src/context/GamificationContext.jsx:178-184 | as written, the comeback badge is never awarded |
| Gamification.ComebackAfterSevenDays | web-app/src/context/GamificationContext.jsx:178-184 | corrected, a course completion seven or more days after the previous learning day earns the comeback badge |
| Gamification.ComebackIffGap | web-app/src/context/GamificationContext.jsx:178-184 | a comeback badge not held is earned exactly by a course completion whose context shows a gap of seven days or more |
| Gamification.AppendKeepsDistinct | web-app/src/context/GamificationContext.jsx:195-198 | appending newly earned badges keeps the held list free of duplicate ids |
| Gamification.GamificationStore.constructor | web-app/src/context/GamificationContext.jsx:17-20 | the store starts with no badges, no activity, no challenge and zero counters |
| Gamification.GamificationStore.CheckBadgeProgress | web-app/src/context/GamificationContext.jsx:127-213 | signed in, the newly earned badges are appended to the held ones; signed out, nothing is earned |
| Gamification.GamificationStore.GenerateDailyChallenge | web-app/src/context/GamificationContext.jsx:264-284 | the day's challenge is the stored one or a fresh pick, and is stored under the day |
| Gamification.GamificationStore.UpdateChallengeProgress | web-app/src/context/GamificationContext.jsx:287-338 | no challenge or a completed one is left alone; otherwise it advances, and the reward fires exactly on completion |
| Gamification.GamificationStore.LogActivity | web-app/src/context/GamificationContext.jsx:341-368 | the activity is logged, the learning day is today, and the night and morning counters count course completions in those hours |
| Gamification.GamificationStore.ScheduleGrants | web-app/src/context/GamificationContext.jsx:287-337 | the challenge step of `updateChallengeProgress` (unchanged when absent or completed, otherwise advanced and stored under today) and the timers of the new badges and of the reward, in firing order |
| Gamification.GamificationStore.RecordActivity | web-app/src/context/GamificationContext.jsx:341-374 | logs the activity and bumps the hour counters, evaluates badges in the as-written context read back from the store; an absent or completed challenge and the stored challenges stay as they were, otherwise the challenge becomes AdvanceChallenge of the old one and is stored under today; returns the badge and reward timers in firing order |
| Notifications.Build | web-app/src/context/NotificationContext.jsx:92-97 | the caller's id, time and read flag win over the fresh id, now and unread |
| Notifications.MarkRead | web-app/src/context/NotificationContext.jsx:158-166 | only notifications with the id become read; the rest are kept |
| Notifications.MarkAll | web-app/src/context/NotificationContext.jsx:169-173 | every notification becomes read and nothing else changes |
| Notifications.MarkAllIdempotent | web-app/src/context/NotificationContext.jsx:169-173 | marking all twice is the same as once, and leaves nothing unread |
| Notifications.MarkAllAbsorbsMarkRead | web-app/src/context/NotificationContext.jsx:158-173 | marking one before marking all makes no difference |
| Notifications.MarkReadUnknownId | web-app/src/context/NotificationContext.jsx:158-166 | marking an unknown id changes nothing |
| Notifications.QuizPercentage | web-app/src/context/NotificationContext.jsx:202 | the rounded percentage, absent for zero questions |
| Notifications.GoodScoreCrossMultiplied | web-app/src/context/NotificationContext.jsx:202-203 | the rounded percentage reaches 70 exactly when 200 times the score is at least 139 times the total |
| Notifications.RoundAtLeast | web-app/src/context/NotificationContext.jsx:202-203 | a rounded value reaches n exactly when the value reaches n - 0.5 |
| Notifications.QuizResultNotice | web-app/src/context/NotificationContext.jsx:201-211 | a quiz notice is high priority exactly for a good score, medium otherwise |
| Notifications.AchievementNotice | web-app/src/context/NotificationContext.jsx:181-188 | an achievement notice is high priority |
| Notifications.CourseCompleteNotice | web-app/src/context/NotificationContext.jsx:191-198 | a completion notice is high priority |
| Notifications.LevelUpNotice | web-app/src/context/NotificationContext.jsx:214-221 | a level-up notice is high priority |
| Notifications.StudyReminderNotice | web-app/src/context/NotificationContext.jsx:224-231 | a reminder is medium priority |
| Notifications.NotificationCenter.constructor | web-app/src/context/NotificationContext.jsx:17 | the centre starts empty |
| Notifications.NotificationCenter.AddNotification | web-app/src/context/NotificationContext.jsx:91-126 | the built notification goes first, and its id is returned |
| Notifications.NotificationCenter.ShowNotification | web-app/src/context/NotificationContext.jsx:129-155 | whatever the browser permission, the notification is added in-app |
| Notifications.NotificationCenter.MarkAsRead | web-app/src/context/NotificationContext.jsx:158-166 | the list becomes the one with that id marked read |
| Notifications.NotificationCenter.MarkAllAsRead | web-app/src/context/NotificationContext.jsx:169-173 | the list becomes the one with all marked read |
| Notifications.NotificationCenter.ClearAllNotifications | web-app/src/context/NotificationContext.jsx:176-178 | the list becomes empty |
| NotificationBell.UnreadCount | web-app/src/components/notifications/NotificationBell.jsx:15 | at most the list's length, and 0 exactly when all are read |
| NotificationBell.UnreadCountAppend | web-app/src/components/notifications/NotificationBell.jsx:15 | the count of two lists joined is the sum of their counts |
| NotificationBell.PrependUnread | web-app/src/components/notifications/NotificationBell.jsx:15 | adding an unread notification raises the count by one |
| NotificationBell.MarkAllClearsCount | web-app/src/components/notifications/NotificationBell.jsx:15 | after marking all, the count is 0 |
| NotificationBell.MarkReadCount | web-app/src/components/notifications/NotificationBell.jsx:15 | marking an id read lowers the count by its unread notifications |
| NotificationBell.CountLabel | web-app/src/components/notifications/NotificationBell.jsx:54-61 | no badge for zero, "99+" above 99, otherwise the count in one or two digits |
| NotificationBell.ElapsedOf | web-app/src/components/notifications/NotificationBell.jsx:29-34 | the chained floors give whole minutes, hours and days of the difference |
| NotificationBell.FloorChain | web-app/src/components/notifications/NotificationBell.jsx:32-34 | flooring step by step equals flooring once |
| NotificationBell.TimeAgo | web-app/src/components/notifications/NotificationBell.jsx:29-40 | days, hours or minutes ago by the largest whole unit, "Just now" below a minute |
| NotificationBell.Icon | web-app/src/components/notifications/NotificationBell.jsx:17-27 | the generic icon exactly for an unknown kind |
| NotificationBell.IconsDistinct | web-app/src/components/notifications/NotificationBell.jsx:17-27 | different known kinds get different icons |
| Quiz.QuizXP | web-app/src/components/quiz/Quiz.jsx:116-118 | XP between 0 and 10 for a score within the questions, and 10 for a perfect score |
| Quiz.TenthsInRange | web-app/src/components/quiz/Quiz.jsx:116-118 | the percentage over ten lies within 0..10 for a score within the questions, and is exactly 10 for a perfect score |
| Quiz.QuizXPForFive | web-app/src/components/quiz/Quiz.jsx:116-118 | with five questions, each correct answer is worth 2 XP |
| Quiz.Next | web-app/src/components/quiz/Quiz.jsx:96-152 | scores the selection; moves on with a clear selection and a fresh timer, or on the last question completes, bumps the streak and reports XP, perfect and Quiz Master at streak 5 |
| Quiz.NextKeepsQuizOk | web-app/src/components/quiz/Quiz.jsx:96-152 | answering keeps the quiz in a reachable state, with final score and XP in range |
| Quiz.TimerEffectAsWritten | web-app/src/components/quiz/Quiz.jsx:83-90 | as written, time 0 always calls the next-question handler, even after completion |
| Quiz.AsWrittenTimeoutScoresTwice | web-app/src/components/quiz/Quiz.jsx:83-90 | timing out on the last question with a correct answer and score 4 reports 5, then 6 with 12 XP, and bumps the streak twice |
| Quiz.TimerEffect | web-app/src/components/quiz/Quiz.jsx:83-90 | corrected: a completed quiz is left alone; otherwise tick down, or advance at 0 |
| Quiz.TimerEffectKeepsQuizOk | web-app/src/components/quiz/Quiz.jsx:83-90 | with the guard, states stay reachable and a quiz reports at most once |
| Quiz.TimerEffectsAgree | web-app/src/components/quiz/Quiz.jsx:83-90 | until the quiz is completed, the effect as written and the guarded effect agree |
| Quiz.ScoreMessage | web-app/src/components/quiz/Quiz.jsx:163-169 | the message tiers at 80, 60 and 40 percent |
| Quiz.PercentageAtLeast | web-app/src/components/quiz/Quiz.jsx:164-167 | a percentage reaches t exactly when 100 times the score reaches t times the total |
| Quiz.ScoreMessageForFive | web-app/src/components/quiz/Quiz.jsx:163-169 | with five questions: 4 or 5 excellent, 3 good, 2 keep practising, fewer need study |
| Quiz.QuizComponent.constructor | web-app/src/components/quiz/Quiz.jsx:11-16 | the quiz starts at the first question with 30 seconds, no score, and the stored streak |
| Quiz.QuizComponent.SelectAnswer | web-app/src/components/quiz/Quiz.jsx:92-94 | only the selection changes |
| Quiz.QuizComponent.HandleNextQuestion | web-app/src/components/quiz/Quiz.jsx:96-152 | the state and report are those of `Next` |
| Quiz.QuizComponent.TimerFires | web-app/src/components/quiz/Quiz.jsx:83-90 | the state and report are those of the timer effect as written; before completion the state stays reachable |
| Quiz.QuizComponent.ResetQuiz | web-app/src/components/quiz/Quiz.jsx:154-161 | back to the start, keeping the stored streak |
| Analytics.Ranking | web-app/src/context/AnalyticsContext.jsx:123-130 | the distinct values, each once, ordered by how often they occur, most first |
| Analytics.RankingHeadIsMostFrequent | web-app/src/context/AnalyticsContext.jsx:138-144 | the first ranked value occurs at least as often as any other |
| Analytics.HourOf | web-app/src/context/AnalyticsContext.jsx:117 | an hour of the day, 0..23 |
| Analytics.WeekdayOf | web-app/src/context/AnalyticsContext.jsx:134-136 | one of the seven weekday names |
| Analytics.Slot | web-app/src/context/AnalyticsContext.jsx:116-121 | Morning before 12, Afternoon from 12 to 16, Evening from 17 |
| Analytics.PreferredTimeSlots | web-app/src/context/AnalyticsContext.jsx:115-131 | at most three distinct slots, exactly those used, most used first |
| Analytics.MostActiveDay | web-app/src/context/AnalyticsContext.jsx:133-145 | "Monday" without data, otherwise the top-ranked weekday |
| Analytics.MostActiveDayIsMostFrequent | web-app/src/context/AnalyticsContext.jsx:133-145 | the most active day occurs in the data, at least as often as any other day |
| Analytics.UserRecords | web-app/src/context/AnalyticsContext.jsx:89-90 | the filter of the log by the user's id: exactly the user's records, each as often and in the order logged |
| Analytics.CompletedCount | web-app/src/context/AnalyticsContext.jsx:98 | the number of records at 80 percent or more |
| Analytics.ComputePatterns | web-app/src/context/AnalyticsContext.jsx:88-112 | without the user's records, the patterns are unchanged; otherwise slots, average duration, completion rate and most active day come from them |
| Analytics.Mean | web-app/src/context/AnalyticsContext.jsx:94-95 | the average times the count is the total |
| Analytics.Share | web-app/src/context/AnalyticsContext.jsx:98-99 | a rate within 0..100 whose product with the count is 100 times the part |
| Analytics.ShareBounds | web-app/src/context/AnalyticsContext.jsx:98-99 | the source's rate expression is within 0..100 |
| Analytics.Recommendations | web-app/src/context/AnalyticsContext.jsx:148-179 | the completion tip exactly below 50 percent, the engagement tip below 15 minutes, the consistency tip at streak 0, in that order, at most three |
| Analytics.LaterTips | web-app/src/context/AnalyticsContext.jsx:160-176 | the engagement and consistency tips exactly under their conditions, in order |
| Analytics.TipOf | web-app/src/context/AnalyticsContext.jsx:152-175 | each tip's kind and priority: engagement is medium, the others high |
| Analytics.AnalyticsStore.constructor | web-app/src/context/AnalyticsContext.jsx:16-31 | initial session and patterns, with the stored logs |
| Analytics.AnalyticsStore.StartSession | web-app/src/context/AnalyticsContext.jsx:34-39 | only the session start time changes |
| Analytics.AnalyticsStore.TrackContentEngagement | web-app/src/context/AnalyticsContext.jsx:42-62 | the record is logged, session time grows by it, and the content joins the viewed set once |
| Analytics.AnalyticsStore.TrackQuizPerformance | web-app/src/context/AnalyticsContext.jsx:65-85 | the quiz record is logged and the quiz joins the session's list |
| Analytics.AnalyticsStore.CalculateLearningPatterns | web-app/src/context/AnalyticsContext.jsx:88-112 | the patterns become those computed from the logged records |
| Analytics.AnalyticsStore.GetPersonalizedRecommendations | web-app/src/context/AnalyticsContext.jsx:148-179 | the recommendations for the current patterns, which always include the consistency tip |
| ContentViewer.SplitLines | web-app/src/components/learning/ContentViewer.jsx:335 | `split('\n')`: at least one line, none holding a newline |
| ContentViewer.JoinSplit | web-app/src/components/learning/ContentViewer.jsx:335 | joining the lines with newlines gives the text back |
| ContentViewer.SplitFirstLine | web-app/src/components/learning/ContentViewer.jsx:335 | splitting a first line and the rest gives that line followed by the rest's lines |
| ContentViewer.SplitJoin | web-app/src/components/learning/ContentViewer.jsx:335 | splitting newline-free lines joined with newlines gives the lines back |
| ContentViewer.LeadingDigits | web-app/src/components/learning/ContentViewer.jsx:345 | the longest run of digits at the start |
| ContentViewer.NumberedLineIff | web-app/src/components/learning/ContentViewer.jsx:345 | `/^\d+\./`: a line is numbered exactly when one or more digits are followed by a dot |
| ContentViewer.RemoveDoubleStars | web-app/src/components/learning/ContentViewer.jsx:343 | `replace(/\*\*/g, '')`: no `**` remains, and text without one is unchanged |
| ContentViewer.Classify | web-app/src/components/learning/ContentViewer.jsx:336-351 | `###` is a level-3 heading, `##` a level-2 heading, `**…**` a bold line, digits and a dot a numbered item, blank a break, anything else a paragraph |
| ContentViewer.ThreeMarksAreTwo | web-app/src/components/learning/ContentViewer.jsx:336-341 | a level-3 heading line also starts with `##`, so the level-3 test must come first |
| ContentViewer.BoldTextHasNoMarkers | web-app/src/components/learning/ContentViewer.jsx:342-344 | a bold line's text shows no `**` |
| ContentViewer.Render | web-app/src/components/learning/ContentViewer.jsx:335-352 | one block per line, each the line's classification |
| ContentViewer.PadTwo | web-app/src/components/learning/ContentViewer.jsx:258 | `padStart(2, '0')`: zeros in front up to two characters |
| ContentViewer.Seconds | web-app/src/components/learning/ContentViewer.jsx:258 | two digits whose value is the seconds |
| ContentViewer.FormatTimer | web-app/src/components/learning/ContentViewer.jsx:258 | `m:ss`: the digits before the colon read as the whole minutes, and the two digits after it as the remaining seconds, so the display determines the elapsed time |
| ContentViewer.LevelUpIff | web-app/src/components/learning/ContentViewer.jsx:136-140 | the reward levels up exactly when the in-level XP plus the reward reaches 100 |
| ContentViewer.SpeedLearnerIsHalfTime | web-app/src/components/learning/ContentViewer.jsx:150 | Speed Learner exactly when under half of the lesson's time |
| ContentViewer.HandleCompletion | web-app/src/components/learning/ContentViewer.jsx:110-157 | reports the reward, the seconds and the minutes, a level-up exactly when crossed with the new level, and Speed Learner under half time |
| ContentViewer.PlayPause | web-app/src/components/learning/ContentViewer.jsx:99-108 | toggles playing, and the new interval sees the current time |
| ContentViewer.TickAsWritten | web-app/src/components/learning/ContentViewer.jsx:80-97 | as written, a completion reports the time the interval saw when it was set up |
| ContentViewer.Tick | web-app/src/components/learning/ContentViewer.jsx:80-97 | corrected: a second of play; on reaching 100 percent it completes, stops and reports the current time |
| ContentViewer.TicksAgree | web-app/src/components/learning/ContentViewer.jsx:80-97 | both intervals reach the same state and complete on the same second; only the reported time differs |
| ContentViewer.MarkComplete | web-app/src/components/learning/ContentViewer.jsx:165-169 | an open lesson jumps to 100 percent and reports; a completed one is left alone |
| ContentViewer.TickKeepsViewerOk | web-app/src/components/learning/ContentViewer.jsx:80-108 | handlers keep progress in range and tied to the seconds played; completion by play is never speedy |
| ContentViewer.CompletionReportedOnce | web-app/src/components/learning/ContentViewer.jsx:80-97 | after a completion, neither the interval nor the button reports again |
| ContentViewer.PlayedFor | web-app/src/components/learning/ContentViewer.jsx:80-97 | n seconds of play from the start give n steps of progress, in both versions |
| ContentViewer.AsWrittenStraightPlayIsSpeedy | web-app/src/components/learning/ContentViewer.jsx:80-97 | as written, a lesson played straight through reports 0 seconds and is speedy |
| ContentViewer.StraightPlayTakesFullTime | web-app/src/components/learning/ContentViewer.jsx:80-97 | corrected, it reports 900 seconds, 15 minutes, and is not speedy |
| ContentViewer.ViewerComponent.constructor | web-app/src/components/learning/ContentViewer.jsx:18-22 | the viewer starts at 0 percent, 0 seconds, paused and open |
| ContentViewer.ViewerComponent.HandlePlayPause | web-app/src/components/learning/ContentViewer.jsx:99-108 | the state becomes that of `PlayPause` and stays consistent |
| ContentViewer.ViewerComponent.IntervalTick | web-app/src/components/learning/ContentViewer.jsx:80-97 | the state and report are those of the interval as written, and the state stays reachable |
| ContentViewer.ViewerComponent.HandleMarkComplete | web-app/src/components/learning/ContentViewer.jsx:165-169 | the state and report are those of `MarkComplete` |
| AIContent.Interpolate | backend/src/routes/aiContent.js:232 | a template value appears as given, or as `undefined` when missing |
| AIContent.MetadataOf | backend/src/routes/aiContent.js:218-233 | the request's values or the defaults General Studies, intermediate, 11th and general; not a fallback |
| AIContent.FallbackOf | backend/src/routes/aiContent.js:270-274 | the fallback package, with a truthy topic and the defaults General Subject and beginner |
| AIContent.Generate | backend/src/routes/aiContent.js:12-286 | a falsy or blank topic is refused; a non-text topic fails to the fallback; otherwise generated, with a save started exactly when a user id is given and the model is loaded |
| AIContent.BlankTopicRefused | backend/src/routes/aiContent.js:30-36 | a non-empty topic of white space only is refused like a missing one |
| AIContent.TargetAudienceUsesRawValues | backend/src/routes/aiContent.js:222-232 | without grade and stream, the metadata has the defaults but the audience reads "undefined undefined students" |
| AIContent.AIContentId | backend/src/routes/aiContent.js:305 | the id starts with `ai-content-` |
| AIContent.AIPatch | backend/src/routes/aiContent.js:307-319 | in progress, 10 percent, score 5, one minute, the AI flag and the session record |
| AIContent.AIEntryValid | backend/src/routes/aiContent.js:307-322 | the entry a generation writes always passes validation |
| AIContent.FreshIdAppends | backend/src/routes/aiContent.js:305-322 | a fresh id appends a new entry and keeps the others |
| AIContent.SaveUserProgressSafely | backend/src/routes/aiContent.js:290-331 | true exactly for a well-formed id of an existing user, whose ledger then records the generation and whose statistics are recomputed from it; otherwise ledger and statistics are unchanged; the interaction history never changes |

## Left out

- Persistence, I/O and concurrency:
  - Database round trips, HTTP status bodies and messages, and console
    logging.
  - Concurrent requests. Each request runs alone, so lost updates
    between two writers are not modelled.
  - Mongoose casting errors. An invalid ObjectId goes to the generic
    500 path in every route.
- Time zones and time:
  - Hours and weekdays are computed in UTC, and days are whole 86 400 000
    ms spans.
  - Timer intervals, toasts and `setTimeout` delays are modelled as
    single steps.
- React rendering:
  - Batching of state updates.
  - Stale closures other than the two that are modelled
    (`Dashboard.QuizCreditedOnce`, `ContentViewer.TickAsWritten`). For
    example, the `user` read by the viewer's `handleCompletion` is not
    modelled.
- Numbers:
  - Floating-point rounding. Reals are used, so the lesson's 1/9 percent
    step is exact.
  - `Auth.Num` models only integers and NaN, not other non-numeric
    counter values.
- `ContentController.ProgressStore.UpdateProgress`: the credit is the
  `$inc` of `progress.totalXP` on the user document. The User schema has
  no such path: `progress` is the array of ledger entries
  (User.js:117), and the XP the statistics show is
  `learningStats.totalXP` (User.js:119). Whether Mongoose applies, drops
  or rejects that increment is not modelled. `userXP` counts the
  increments the controller issues.
- `ContentController.GetContent`: the order among items created at the
  same instant is not modelled. The database leaves it open, and the
  model keeps catalogue order.
- `ContentController.GetContent`: a NaN or negative `limit` is not
  modelled. The limit is a natural number, where 0 means no limit.
- `Analytics.Ranking`: the order among equally frequent values is not
  stated. The sort keeps them in first-occurrence order, but only the
  already-sorted case is proved (`Common.SortDescOfSorted`). So
  `PreferredTimeSlots`, `MostActiveDay` and `Gamification.Leaderboard`
  do not promise which of several tied values comes first.
- `Gamification.NextProgress`: a study session without `minutes` counts
  as 0 minutes. In the source, adding `undefined` gives NaN.
- Password hashing and comparison on the user document (User.js:228-238).
  They use an external library.
- The account hydration effect that reads the stored token and user at
  start-up (AuthContext.jsx:65-90).
- The stored quiz streak's string parsing (`parseInt`). The streak is an
  integer.
- Notification texts, the browser Notification API itself, and the
  study-reminder interval (NotificationContext.jsx:56-88).
- AI content:
  - The template texts of the generated study material
    (aiContent.js:41-217).
  - The promise handling of the fire-and-forget save.
- The random parts:
  - The random suffix of the AI content id (the `suffix` parameter).
  - The random choice of the daily challenge (the `pick` parameter).
- Local storage:
  - The leaderboard rows other than the user are fixed sample data.
  - Storage keys such as `lastLearningDate` and `dailyChallenge_…` are
    not per user. One store models one browser.
- Dashboard display:
  - The statistics cards (Dashboard.jsx:49-54).
- Content viewer:
  - The `content_started` and `learning_session_started` activities
    that the viewer records are not modelled. `RecordActivity` covers
    what recording does.
  - The minutes passed to engagement tracking (`timeSpent / 60`) are a
    real in `Completion.minutes`, while the tracked record's time is an
    integer.
- The percentage field of the stored quiz analytics record.
- `Auth.XPOf`: states only the missing-user and missing-progress cases.
  Otherwise it is the stored value as read.

## Findings

| source | as written | input that shows it | evidently intended | confidence | as-written member | corrected member |
|---|---|---|---|---|---|---|
| backend/src/controllers/contentController.js:128-140 | the reward increment is issued with `$inc` before `progress.save()`, which can still reject the record | the same completion with `completionPercentage` 150 sent twice: the save is rejected both times and the increment is issued twice (this matters only if the increment takes effect; see "## Left out") | credit the reward only once the completed record has been saved | not executed | ContentController.AsWrittenDoubleAward | ContentController.ReplayAwardsOnce |
| backend/src/controllers/contentController.js:10-23 | the stream alternatives are pushed into the same `$or` as the grade alternatives | grade `10th` and stream `science` list a published 12th-grade item open to all streams | both the grade and the stream must match | not executed | ContentController.AsWrittenIgnoresGrade | ContentController.BuildFilterSelectsIntended |
| web-app/src/context/GamificationContext.jsx:355 | `lastLearningDate` is set to today before the badge check reads it for the comeback gap | a course completion ten days after the last learning day | the comeback badge is earned after a gap of seven days or more | not executed | Gamification.AsWrittenComebackNever | Gamification.ComebackAfterSevenDays |
| web-app/src/components/quiz/Quiz.jsx:83-90 | the timer effect calls `handleNextQuestion` whenever time reads 0, also after the quiz is completed. The defect is in the component alone. On the dashboard, `onComplete` hides the quiz in the same batched update (Dashboard.jsx:31, :356-358), so the second run is not reached there | the last question times out with the correct answer selected and score 4: the quiz reports 5, then 6 with 12 XP, and the streak grows by 2 | a completed quiz is not scored again | not executed | Quiz.AsWrittenTimeoutScoresTwice | Quiz.TimerEffectKeepsQuizOk |
| web-app/src/components/learning/ContentViewer.jsx:80-97 | the interval callback keeps the `timeSpent` of the moment it was set up and passes it to `handleCompletion` | a fresh lesson played straight through for 900 seconds is reported as 0 seconds, 0 minutes, and earns Speed Learner | the completion reports the 900 seconds played (15 minutes) and is not speedy | not executed | ContentViewer.AsWrittenStraightPlayIsSpeedy | ContentViewer.StraightPlayTakesFullTime |
