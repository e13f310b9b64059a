/**
 * The client gamification engine (web-app/src/context/GamificationContext.jsx):
 * the badge catalogue and its evaluation against the user's statistics and
 * the context of the triggering event, the daily challenge state machine,
 * the leaderboard, and `recordActivity`, which updates the stored counters
 * and then evaluates badges and the challenge.
 *
 * Browser storage is modelled as the fields of `GamificationStore`; the
 * clock is the `now` parameter (milliseconds) and the local hour is the
 * `hour` parameter. A day is `now / MillisPerDay`.
 */
module Gamification {
  import opened Common

  // ---------------------------------------------------------------------
  // Badge catalogue

  datatype RequirementKind =
    | CoursesCompleted | PerfectQuizzes | DailyCourses | LearningStreak | TotalXP
    | PerfectCourses | HelpCount | NightLearning | MorningLearning | Comeback

  datatype Badge = Badge(id: string, title: string, kind: RequirementKind, count: int, xp: int)

  const Catalogue: seq<Badge> := [
    Badge("first_steps", "First Steps", CoursesCompleted, 1, 10),
    Badge("quiz_master", "Quiz Master", PerfectQuizzes, 3, 25),
    Badge("speed_learner", "Speed Learner", DailyCourses, 5, 30),
    Badge("streak_champion", "Streak Champion", LearningStreak, 7, 35),
    Badge("knowledge_seeker", "Knowledge Seeker", TotalXP, 500, 40),
    Badge("perfectionist", "Perfectionist", PerfectCourses, 10, 50),
    Badge("social_learner", "Social Learner", HelpCount, 5, 20),
    Badge("night_owl", "Night Owl", NightLearning, 3, 15),
    Badge("early_bird", "Early Bird", MorningLearning, 3, 15),
    Badge("comeback_king", "Comeback King", Comeback, 1, 25)
  ]

  datatype EarnedBadge = EarnedBadge(badge: Badge, earnedAt: Time)

  const CourseCompletedAction: string := "course_completed"
  const QuizCompletedAction: string := "quiz_completed"
  const StudySessionAction: string := "study_session"
  const NewCategoryAction: string := "new_category_explored"

  /** The counters `getUserStats` gathers; a missing value reads as 0. */
  datatype UserStats = UserStats(
    coursesCompleted: int, totalXP: int, currentStreak: int,
    perfectQuizzes: int, perfectCourses: int, helpCount: int)

  /** A counter of the signed-in user's progress, 0 when absent. */
  function ProgressField(progress: Option<map<string, int>>, key: string): int {
    if progress.Some? && key in progress.value then OrZero(Some(progress.value[key])) else 0
  }

  /** `v` is the value stored under `key`, or 0 when there is none. */
  predicate ReadsOrZero(v: int, m: map<string, int>, key: string) {
    if key in m then v == m[key] else v == 0
  }

  /**
   * `getUserStats`: course count, XP and streak from the user's progress,
   * the other three counters from storage; anything missing is 0.
   */
  function GetUserStats(progress: Option<map<string, int>>, stored: map<string, int>): (s: UserStats)
    ensures ReadsOrZero(s.coursesCompleted, progress.GetOr(map[]), "modulesCompleted")
    ensures ReadsOrZero(s.totalXP, progress.GetOr(map[]), "totalXP")
    ensures ReadsOrZero(s.currentStreak, progress.GetOr(map[]), "currentStreak")
    ensures ReadsOrZero(s.perfectQuizzes, stored, "perfectQuizzes")
    ensures ReadsOrZero(s.perfectCourses, stored, "perfectCourses")
    ensures ReadsOrZero(s.helpCount, stored, "helpCount")
  {
    UserStats(
      ProgressField(progress, "modulesCompleted"),
      ProgressField(progress, "totalXP"),
      ProgressField(progress, "currentStreak"),
      if "perfectQuizzes" in stored then stored["perfectQuizzes"] else 0,
      if "perfectCourses" in stored then stored["perfectCourses"] else 0,
      if "helpCount" in stored then stored["helpCount"] else 0)
  }

  /** What the triggering event contributes: same-day count, hour, hour counters and the gap since last learning. */
  datatype EventContext = EventContext(
    todayCourses: int, hour: int, nightCount: int, morningCount: int, msSinceLastLearning: int)

  const ComebackGap: int := 7 * MillisPerDay

  /** Badges whose rule reads a statistic alone, whatever the action. */
  predicate IsThreshold(k: RequirementKind) {
    k.CoursesCompleted? || k.PerfectQuizzes? || k.LearningStreak? || k.TotalXP? || k.PerfectCourses? || k.HelpCount?
  }

  function StatOf(s: UserStats, k: RequirementKind): int
    requires IsThreshold(k)
  {
    match k
    case CoursesCompleted => s.coursesCompleted
    case PerfectQuizzes => s.perfectQuizzes
    case LearningStreak => s.currentStreak
    case TotalXP => s.totalXP
    case PerfectCourses => s.perfectCourses
    case HelpCount => s.helpCount
  }

  /** The requirement switch of `checkBadgeProgress`. */
  predicate Qualifies(b: Badge, action: string, s: UserStats, ctx: EventContext) {
    match b.kind
    case CoursesCompleted => s.coursesCompleted >= b.count
    case PerfectQuizzes => s.perfectQuizzes >= b.count
    case DailyCourses => action == CourseCompletedAction && ctx.todayCourses >= b.count
    case LearningStreak => s.currentStreak >= b.count
    case TotalXP => s.totalXP >= b.count
    case PerfectCourses => s.perfectCourses >= b.count
    case HelpCount => s.helpCount >= b.count
    case NightLearning => action == CourseCompletedAction && ctx.hour >= 22 && ctx.nightCount >= b.count
    case MorningLearning => action == CourseCompletedAction && ctx.hour < 7 && ctx.morningCount >= b.count
    case Comeback => action == CourseCompletedAction && ctx.msSinceLastLearning >= ComebackGap
  }

  predicate Held(held: seq<EarnedBadge>, id: string) {
    exists i :: 0 <= i < |held| && held[i].badge.id == id
  }

  function BadgesOf(r: seq<EarnedBadge>): (bs: seq<Badge>)
    ensures |bs| == |r| && forall i :: 0 <= i < |r| ==> bs[i] == r[i].badge
  {
    if r == [] then [] else BadgesOf(r[..|r| - 1]) + [r[|r| - 1].badge]
  }

  predicate DistinctIds(bs: seq<Badge>) {
    forall i, j :: 0 <= i < j < |bs| ==> bs[i].id != bs[j].id
  }

  /** A badge is awarded by an evaluation when it is not held and its rule is met. */
  predicate Awards(held: seq<EarnedBadge>, b: Badge, action: string, s: UserStats, ctx: EventContext) {
    !Held(held, b.id) && Qualifies(b, action, s, ctx)
  }

  /**
   * The catalogue entries one evaluation awards, in catalogue order: exactly
   * those that are not held and whose rule is met.
   */
  function Selected(held: seq<EarnedBadge>, cat: seq<Badge>, action: string, s: UserStats, ctx: EventContext)
    : (r: seq<Badge>)
    ensures forall b :: b in r ==> b in cat && Awards(held, b, action, s, ctx)
    ensures forall k :: 0 <= k < |cat| && Awards(held, cat[k], action, s, ctx) ==> cat[k] in r
  {
    if cat == [] then []
    else
      var init := Selected(held, cat[..|cat| - 1], action, s, ctx);
      var b := cat[|cat| - 1];
      assert cat == cat[..|cat| - 1] + [b];
      if Awards(held, b, action, s, ctx) then init + [b] else init
  }

  /** Each badge stamped with the evaluation time. */
  function Stamp(bs: seq<Badge>, now: Time): (r: seq<EarnedBadge>)
    ensures |r| == |bs| && forall i :: 0 <= i < |r| ==> r[i] == EarnedBadge(bs[i], now)
    ensures BadgesOf(r) == bs
  {
    if bs == [] then [] else Stamp(bs[..|bs| - 1], now) + [EarnedBadge(bs[|bs| - 1], now)]
  }

  /** The result of `checkBadgeProgress` for a signed-in user. */
  function NewlyEarned(held: seq<EarnedBadge>, action: string, s: UserStats, ctx: EventContext, now: Time)
    : (r: seq<EarnedBadge>)
    ensures BadgesOf(r) == Selected(held, Catalogue, action, s, ctx)
    ensures forall i :: 0 <= i < |r| ==> r[i].earnedAt == now
  {
    Stamp(Selected(held, Catalogue, action, s, ctx), now)
  }

  /** Newly earned badges come out in catalogue order. */
  lemma {:induction false} SelectedInCatalogueOrder(held: seq<EarnedBadge>, cat: seq<Badge>, action: string,
                                                    s: UserStats, ctx: EventContext)
    ensures SubsequenceOf(Selected(held, cat, action, s, ctx), cat)
    decreases |cat|
  {
    if cat != [] {
      var r := Selected(held, cat, action, s, ctx);
      var init := Selected(held, cat[..|cat| - 1], action, s, ctx);
      SelectedInCatalogueOrder(held, cat[..|cat| - 1], action, s, ctx);
      var b := cat[|cat| - 1];
      if Awards(held, b, action, s, ctx) {
        assert r[..|r| - 1] == init;
      } else {
        SubsequenceExtend(init, cat[..|cat| - 1], b);
        assert cat[..|cat| - 1] + [b] == cat;
      }
    }
  }

  /** A catalogue with distinct ids yields badges with distinct ids. */
  lemma {:induction false} SelectedDistinct(held: seq<EarnedBadge>, cat: seq<Badge>, action: string,
                                            s: UserStats, ctx: EventContext)
    requires DistinctIds(cat)
    ensures DistinctIds(Selected(held, cat, action, s, ctx))
    decreases |cat|
  {
    if cat != [] {
      var front := cat[..|cat| - 1];
      var b := cat[|cat| - 1];
      var init := Selected(held, front, action, s, ctx);
      SelectedDistinct(held, front, action, s, ctx);
      if Awards(held, b, action, s, ctx) {
        var r := init + [b];
        forall i, j | 0 <= i < j < |r| ensures r[i].id != r[j].id {
          if j == |r| - 1 {
            assert r[i] in front;
            var k :| 0 <= k < |front| && front[k] == r[i];
            assert cat[k] == r[i];
          } else {
            assert r[i] == init[i] && r[j] == init[j];
          }
        }
      }
    }
  }

  lemma CatalogueIdsDistinct()
    ensures DistinctIds(Catalogue)
  {
  }

  /**
   * A badge whose rule reads a statistic alone is awarded, when not held,
   * exactly when that statistic reaches the badge's count.
   */
  lemma ThresholdBadgeIff(held: seq<EarnedBadge>, action: string, s: UserStats, ctx: EventContext, k: int)
    requires 0 <= k < |Catalogue| && IsThreshold(Catalogue[k].kind) && !Held(held, Catalogue[k].id)
    ensures Catalogue[k] in Selected(held, Catalogue, action, s, ctx) <==>
      StatOf(s, Catalogue[k].kind) >= Catalogue[k].count
  {
  }

  /** Only a `course_completed` action can earn a badge whose rule reads the event context. */
  lemma EventBadgesNeedCourseCompletion(held: seq<EarnedBadge>, action: string, s: UserStats, ctx: EventContext)
    requires action != CourseCompletedAction
    ensures forall b :: b in Selected(held, Catalogue, action, s, ctx) ==> IsThreshold(b.kind)
  {
  }

  /** An `earnXP` call deferred by `setTimeout`: the delay in milliseconds and the XP. */
  datatype Grant = Grant(delay: int, xp: int)

  /** Badge `i` of one evaluation is granted after `i * 2000` ms, the challenge reward after 1000 ms. */
  const BadgeSpacing := 2000
  const ChallengeDelay := 1000

  /** The timers `checkBadgeProgress` sets: one per newly earned badge, of its XP, spaced by index. */
  function BadgeGrants(r: seq<EarnedBadge>): (g: seq<Grant>)
    ensures |g| == |r|
    ensures forall i :: 0 <= i < |r| ==> g[i] == Grant(i * BadgeSpacing, r[i].badge.xp)
  {
    if r == [] then [] else BadgeGrants(r[..|r| - 1]) + [Grant((|r| - 1) * BadgeSpacing, r[|r| - 1].badge.xp)]
  }

  /** Timers listed in the order they fire. */
  predicate ByDelay(g: seq<Grant>) {
    forall i, j :: 0 <= i < j < |g| ==> g[i].delay < g[j].delay
  }

  /**
   * All the grants of one `recordActivity`, in firing order: the challenge
   * reward, when due, fires after the first badge and before the second.
   */
  function Schedule(badges: seq<EarnedBadge>, reward: Option<int>): (g: seq<Grant>)
    ensures ByDelay(g)
    ensures reward.None? ==> g == BadgeGrants(badges)
    ensures reward.Some? ==> multiset(g) == multiset(BadgeGrants(badges)) + multiset{Grant(ChallengeDelay, reward.value)}
  {
    var b := BadgeGrants(badges);
    if reward.None? then
      BadgeGrantsByDelay(badges);
      b
    else if b == [] then [Grant(ChallengeDelay, reward.value)]
    else
      var g := b[..1] + [Grant(ChallengeDelay, reward.value)] + b[1..];
      assert b[..1] + b[1..] == b;
      InsertedByDelay(b, Grant(ChallengeDelay, reward.value));
      g
  }

  /** Badge timers fire in index order. */
  lemma BadgeGrantsByDelay(badges: seq<EarnedBadge>)
    ensures ByDelay(BadgeGrants(badges))
  {
    var b := BadgeGrants(badges);
    forall i, j | 0 <= i < j < |b| ensures b[i].delay < b[j].delay {
      assert b[i].delay == i * BadgeSpacing && b[j].delay == j * BadgeSpacing;
    }
  }

  /** The challenge timer placed after the first badge timer keeps the firing order. */
  lemma InsertedByDelay(b: seq<Grant>, c: Grant)
    requires |b| > 0 && forall i :: 0 <= i < |b| ==> b[i].delay == i * BadgeSpacing
    requires c.delay == ChallengeDelay
    ensures ByDelay(b[..1] + [c] + b[1..])
  {
    var g := b[..1] + [c] + b[1..];
    forall i, j | 0 <= i < j < |g| ensures g[i].delay < g[j].delay {
      if j >= 2 {
        assert g[j] == b[j - 1];
      }
      if i == 0 {
        assert g[i] == b[0];
      } else if i >= 2 {
        assert g[i] == b[i - 1];
      }
    }
  }

  /** The `forEach` of `checkBadgeProgress` over the catalogue. */
  method EvaluateBadges(held: seq<EarnedBadge>, action: string, s: UserStats, ctx: EventContext, now: Time)
    returns (newBadges: seq<EarnedBadge>)
    ensures newBadges == NewlyEarned(held, action, s, ctx, now)
  {
    var cat := Catalogue;
    newBadges := [];
    var k := 0;
    while k < |cat|
      invariant 0 <= k <= |cat|
      invariant newBadges == Stamp(Selected(held, cat[..k], action, s, ctx), now)
    {
      var b := cat[k];
      SelectedStep(held, cat, k, action, s, ctx, now);
      if !Held(held, b.id) && Qualifies(b, action, s, ctx) {
        newBadges := newBadges + [EarnedBadge(b, now)];
      }
      k := k + 1;
    }
    assert cat[..k] == cat;
  }

  /** One more catalogue entry adds its stamped badge exactly when it is awarded. */
  lemma SelectedStep(held: seq<EarnedBadge>, cat: seq<Badge>, k: int, action: string, s: UserStats,
                     ctx: EventContext, now: Time)
    requires 0 <= k < |cat|
    ensures Stamp(Selected(held, cat[..k + 1], action, s, ctx), now) ==
      Stamp(Selected(held, cat[..k], action, s, ctx), now) +
      (if Awards(held, cat[k], action, s, ctx) then [EarnedBadge(cat[k], now)] else [])
  {
    assert cat[..k + 1][..k] == cat[..k];
  }

  // ---------------------------------------------------------------------
  // Daily challenge

  datatype ChallengeKind = CoursesGoal | QuizScoreGoal | StudyTimeGoal | PerfectQuizGoal | NewCategoryGoal

  datatype Challenge = Challenge(
    id: int, title: string, reward: int, kind: ChallengeKind, target: int, progress: int, completed: bool)

  /** The five challenges, each started with progress 0 and not completed. */
  const Challenges: seq<Challenge> := [
    Challenge(1, "Speed Run", 50, CoursesGoal, 3, 0, false),
    Challenge(2, "Quiz Master", 30, QuizScoreGoal, 2, 0, false),
    Challenge(3, "Streak Builder", 25, StudyTimeGoal, 30, 0, false),
    Challenge(4, "Perfect Score", 40, PerfectQuizGoal, 1, 0, false),
    Challenge(5, "Knowledge Explorer", 35, NewCategoryGoal, 1, 0, false)
  ]

  /** The payload of an activity; absent values are `None`. */
  datatype ActivityData = ActivityData(percentage: Option<int>, minutes: Option<int>)

  /** A challenge whose progress lies at or below its target and which is completed exactly at the target. */
  predicate ChallengeOk(c: Challenge) {
    c.progress <= c.target && (c.completed <==> c.progress == c.target)
  }

  lemma ChallengesStartOk()
    ensures forall i :: 0 <= i < |Challenges| ==>
      ChallengeOk(Challenges[i]) && Challenges[i].progress == 0 && !Challenges[i].completed && Challenges[i].target >= 1
  {
  }

  /** Whether an action counts towards a challenge of its kind. */
  predicate Counts(c: Challenge, action: string, data: ActivityData) {
    match c.kind
    case CoursesGoal => action == CourseCompletedAction
    case QuizScoreGoal => action == QuizCompletedAction && data.percentage.Some? && data.percentage.value >= 80
    case StudyTimeGoal => action == StudySessionAction
    case PerfectQuizGoal => action == QuizCompletedAction && data.percentage == Some(100)
    case NewCategoryGoal => action == NewCategoryAction
  }

  /**
   * The progress an action brings: an action that does not count leaves it;
   * one that counts adds one (courses, quiz scores) or the minutes (study
   * time), clamped to the target, or jumps to the target (perfect quiz, new
   * category).
   */
  function NextProgress(c: Challenge, action: string, data: ActivityData): (p: int)
    ensures c.progress <= c.target ==> p <= c.target
    ensures !Counts(c, action, data) ==> p == c.progress
    ensures Counts(c, action, data) && (c.kind.CoursesGoal? || c.kind.QuizScoreGoal?) ==>
      p == Min(c.progress + 1, c.target)
    ensures Counts(c, action, data) && c.kind.StudyTimeGoal? ==>
      p == Min(c.progress + data.minutes.GetOr(0), c.target)
    ensures Counts(c, action, data) && (c.kind.PerfectQuizGoal? || c.kind.NewCategoryGoal?) ==> p == c.target
  {
    match c.kind
    case CoursesGoal =>
      if action == CourseCompletedAction then Min(c.progress + 1, c.target) else c.progress
    case QuizScoreGoal =>
      if action == QuizCompletedAction && data.percentage.Some? && data.percentage.value >= 80
      then Min(c.progress + 1, c.target) else c.progress
    case StudyTimeGoal =>
      if action == StudySessionAction then Min(c.progress + data.minutes.GetOr(0), c.target) else c.progress
    case PerfectQuizGoal =>
      if action == QuizCompletedAction && data.percentage == Some(100) then c.target else c.progress
    case NewCategoryGoal =>
      if action == NewCategoryAction then c.target else c.progress
  }

  function Min(a: int, b: int): int {
    if a <= b then a else b
  }

  /** `updateChallengeProgress` on the challenge cell: a result of `None` means the call does nothing. */
  function AdvanceChallenge(c: Challenge, action: string, data: ActivityData): (r: Option<Challenge>)
    ensures r.None? <==> c.completed
    ensures r.Some? ==> r.value == c.(progress := NextProgress(c, action, data), completed := r.value.progress >= c.target)
    ensures r.Some? && ChallengeOk(c) ==> ChallengeOk(r.value)
  {
    if c.completed then None
    else
      var p := NextProgress(c, action, data);
      Some(c.(progress := p, completed := p >= c.target))
  }

  /** The reward fires on the false-to-true transition of `completed`. */
  predicate Fires(c: Challenge, r: Option<Challenge>) {
    r.Some? && r.value.completed && !c.completed
  }

  /** The reward due from one call: the challenge's reward when it fires, else 0. */
  function RewardOf(c: Challenge, r: Option<Challenge>): int {
    if Fires(c, r) then c.reward else 0
  }

  /** With non-negative contributions, progress never goes down. */
  lemma ProgressMonotone(c: Challenge, action: string, data: ActivityData)
    requires ChallengeOk(c) && !c.completed
    requires data.minutes.GetOr(0) >= 0
    ensures AdvanceChallenge(c, action, data).value.progress >= c.progress
  {
  }

  /** A series of actions on one challenge: the final cell and the total reward granted. */
  function ReplayChallenge(c: Challenge, actions: seq<(string, ActivityData)>): (Challenge, int)
    decreases |actions|
  {
    if actions == [] then (c, 0)
    else
      var r := AdvanceChallenge(c, actions[0].0, actions[0].1);
      var next := if r.Some? then r.value else c;
      var rest := ReplayChallenge(next, actions[1..]);
      (rest.0, RewardOf(c, r) + rest.1)
  }

  /**
   * The reward fires exactly once: over any series of actions, the total
   * granted is the reward when the challenge ends completed having started
   * uncompleted, and 0 otherwise.
   */
  lemma {:induction false} RewardFiresOnce(c: Challenge, actions: seq<(string, ActivityData)>)
    requires ChallengeOk(c)
    ensures var (final, total) := ReplayChallenge(c, actions);
      ChallengeOk(final) && final.reward == c.reward &&
      total == (if final.completed && !c.completed then c.reward else 0)
    ensures c.completed ==> ReplayChallenge(c, actions).0 == c
    decreases |actions|
  {
    if actions != [] {
      var r := AdvanceChallenge(c, actions[0].0, actions[0].1);
      var next := if r.Some? then r.value else c;
      RewardFiresOnce(next, actions[1..]);
    }
  }

  /**
   * `n` course completions move a courses challenge `n` steps towards its
   * target, stopping there, and leave it completed exactly when they reach it.
   */
  lemma {:induction false} CourseCompletionsAdvance(c: Challenge, n: nat, data: ActivityData)
    requires ChallengeOk(c) && c.kind.CoursesGoal?
    ensures var final := ReplayChallenge(c, seq(n, _ => (CourseCompletedAction, data))).0;
      final.progress == Min(c.progress + n, c.target) && (final.completed <==> c.progress + n >= c.target)
    decreases n
  {
    if n > 0 {
      var acts := seq(n, _ => (CourseCompletedAction, data));
      assert acts[1..] == seq(n - 1, _ => (CourseCompletedAction, data));
      var r := AdvanceChallenge(c, acts[0].0, acts[0].1);
      var next := if r.Some? then r.value else c;
      CourseCompletionsAdvance(next, n - 1, data);
    }
  }

  /** `generateDailyChallenge`: today's stored challenge, or the picked one started afresh. */
  function DailyChallengeFor(stored: map<int, Challenge>, day: int, pick: nat): (c: Challenge)
    requires pick < |Challenges|
    ensures day in stored ==> c == stored[day]
    ensures day !in stored ==> c == Challenges[pick] && c.progress == 0 && !c.completed
  {
    if day in stored then stored[day] else Challenges[pick]
  }

  // ---------------------------------------------------------------------
  // Leaderboard

  datatype Row = Row(id: int, name: string, xp: int, level: int, badgeCount: int)
  datatype RankedRow = RankedRow(row: Row, rank: int)

  function RowXP(r: Row): int {
    r.xp
  }

  /** The four fixed rows and the signed-in user's row (name or "You", XP or 0, level from XP). */
  function LeaderboardRows(userName: Option<string>, totalXP: Option<int>, badgeCount: nat): (rows: seq<Row>)
    ensures |rows| == 5 && rows[3].id == 4
    ensures rows[3].xp == OrZero(totalXP) && rows[3].level == Level(OrZero(totalXP)) && rows[3].badgeCount == badgeCount
  {
    [ Row(1, "Alex Johnson", 1250, 13, 8),
      Row(2, "Priya Sharma", 1100, 11, 7),
      Row(3, "Mike Chen", 980, 10, 6),
      Row(4, OrText(userName, "You"), OrZero(totalXP), Level(OrZero(totalXP)), badgeCount),
      Row(5, "Sarah Wilson", 875, 9, 5) ]
  }

  function Rank(rows: seq<Row>): (r: seq<RankedRow>)
    ensures |r| == |rows| && forall i :: 0 <= i < |r| ==> r[i] == RankedRow(rows[i], i + 1)
  {
    if rows == [] then [] else Rank(rows[..|rows| - 1]) + [RankedRow(rows[|rows| - 1], |rows|)]
  }

  /** `loadLeaderboard`: the rows sorted by XP, largest first, ranked 1, 2, ... */
  function Leaderboard(rows: seq<Row>): (r: seq<RankedRow>)
    ensures |r| == |rows|
    ensures forall i :: 0 <= i < |r| ==> r[i].rank == i + 1
    ensures forall i, j :: 0 <= i < j < |r| ==> r[i].row.xp >= r[j].row.xp
    ensures multiset(RowsOf(r)) == multiset(rows)
  {
    var sorted := SortDesc(rows, RowXP);
    var ranked := Rank(sorted);
    assert RowsOf(ranked) == sorted;
    forall i, j | 0 <= i < j < |ranked| ensures ranked[i].row.xp >= ranked[j].row.xp {
      assert RowXP(sorted[i]) >= RowXP(sorted[j]);
    }
    ranked
  }

  function RowsOf(r: seq<RankedRow>): (rows: seq<Row>)
    ensures |rows| == |r| && forall i :: 0 <= i < |r| ==> rows[i] == r[i].row
  {
    if r == [] then [] else RowsOf(r[..|r| - 1]) + [r[|r| - 1].row]
  }

  /** The signed-in user appears on the leaderboard exactly once, with a level that matches the XP shown. */
  lemma UserOnLeaderboardOnce(userName: Option<string>, totalXP: Option<int>, badgeCount: nat)
    ensures var r := Leaderboard(LeaderboardRows(userName, totalXP, badgeCount));
      var u := LeaderboardRows(userName, totalXP, badgeCount)[3];
      multiset(RowsOf(r))[u] == 1 && u.level == Level(u.xp)
  {
    UserRowUnique(userName, totalXP, badgeCount);
  }

  /** The user's row differs from the four fixed rows by its id. */
  lemma UserRowUnique(userName: Option<string>, totalXP: Option<int>, badgeCount: nat)
    ensures var rows := LeaderboardRows(userName, totalXP, badgeCount);
      multiset(rows)[rows[3]] == 1
  {
    var rows := LeaderboardRows(userName, totalXP, badgeCount);
    var u := rows[3];
    assert rows == rows[..3] + [u] + rows[4..];
    assert u !in rows[..3] && u !in rows[4..];
  }

  // ---------------------------------------------------------------------
  // The stored state and recordActivity

  datatype Activity = Activity(kind: string, at: Time)

  function DayOf(t: Time): int {
    t / MillisPerDay
  }

  /** `new Date(dateString)` for a stored day: its first millisecond. */
  function DayStart(day: int): Time {
    day * MillisPerDay
  }

  /** A course completion recorded on the given day. */
  predicate CompletedOn(a: Activity, day: int) {
    DayOf(a.at) == day && a.kind == CourseCompletedAction
  }

  /** `getUserTodayActivity`: how many entries of the log are course completions on the given day. */
  function TodayCompletions(log: seq<Activity>, day: int): (n: nat)
    ensures n == |Filter(log, a => CompletedOn(a, day))|
  {
    if log == [] then 0
    else
      var init := log[..|log| - 1];
      assert log == init + [log[|log| - 1]];
      TodayCompletions(init, day) + (if CompletedOn(log[|log| - 1], day) then 1 else 0)
  }

  /** Night completions: from 22:00 to 06:00. Morning completions: before 07:00. */
  predicate NightHour(hour: int) { hour >= 22 || hour < 6 }
  predicate MorningHour(hour: int) { hour < 7 }

  /** The milliseconds since the stored learning day began; a missing day reads as "now". */
  function SinceLastLearning(lastDay: Option<int>, now: Time): int {
    if lastDay.Some? then now - DayStart(lastDay.value) else 0
  }

  /**
   * The event context `recordActivity` hands to the badge check, as the code
   * orders it: the learning day has already been overwritten with today.
   */
  function ContextAsWritten(log: seq<Activity>, night: int, morning: int, lastDay: Option<int>,
                            kind: string, now: Time, hour: int): EventContext {
    var cc := kind == CourseCompletedAction;
    EventContext(
      TodayCompletions(log + [Activity(kind, now)], DayOf(now)), hour,
      if cc && NightHour(hour) then night + 1 else night,
      if cc && MorningHour(hour) then morning + 1 else morning,
      SinceLastLearning(Some(DayOf(now)), now))
  }

  /** The corrected context: the gap is measured from the learning day stored before this activity. */
  function Context(log: seq<Activity>, night: int, morning: int, lastDay: Option<int>,
                   kind: string, now: Time, hour: int): (ctx: EventContext)
    ensures ctx.msSinceLastLearning == SinceLastLearning(lastDay, now)
    ensures ctx.todayCourses == TodayCompletions(log + [Activity(kind, now)], DayOf(now))
  {
    ContextAsWritten(log, night, morning, lastDay, kind, now, hour).(msSinceLastLearning := SinceLastLearning(lastDay, now))
  }

  /** The first millisecond of a day lies less than a day before any instant of it. */
  lemma SameDayGap(now: Time)
    ensures 0 <= SinceLastLearning(Some(DayOf(now)), now) < MillisPerDay
  {
  }

  /** As written, the comeback badge can never be earned: the gap is always under one day. */
  lemma AsWrittenComebackNever(held: seq<EarnedBadge>, s: UserStats, log: seq<Activity>, night: int, morning: int,
                               lastDay: Option<int>, kind: string, now: Time, hour: int)
    ensures var ctx := ContextAsWritten(log, night, morning, lastDay, kind, now, hour);
      Catalogue[9] !in Selected(held, Catalogue, kind, s, ctx)
  {
    SameDayGap(now);
    ComebackIffGap(held, s, kind, ContextAsWritten(log, night, morning, lastDay, kind, now, hour));
  }

  /**
   * Corrected, a course completion earns the comeback badge, when not held,
   * exactly when a learning day is stored and began at least seven days ago.
   */
  lemma ComebackAfterSevenDays(held: seq<EarnedBadge>, s: UserStats, log: seq<Activity>, night: int, morning: int,
                               lastDay: Option<int>, now: Time, hour: int)
    requires !Held(held, "comeback_king")
    ensures var ctx := Context(log, night, morning, lastDay, CourseCompletedAction, now, hour);
      Catalogue[9] in Selected(held, Catalogue, CourseCompletedAction, s, ctx) <==>
      lastDay.Some? && now - DayStart(lastDay.value) >= ComebackGap
  {
    ComebackIffGap(held, s, CourseCompletedAction, Context(log, night, morning, lastDay, CourseCompletedAction, now, hour));
  }

  /** The comeback badge, when not held, is earned exactly by a course completion after a gap of seven days. */
  lemma ComebackIffGap(held: seq<EarnedBadge>, s: UserStats, action: string, ctx: EventContext)
    ensures Catalogue[9] in Selected(held, Catalogue, action, s, ctx) <==>
      !Held(held, "comeback_king") && action == CourseCompletedAction && ctx.msSinceLastLearning >= ComebackGap
  {
    var b := Catalogue[9];
    assert b.id == "comeback_king" && b.kind == Comeback;
    assert Awards(held, b, action, s, ctx) <==>
      !Held(held, "comeback_king") && action == CourseCompletedAction && ctx.msSinceLastLearning >= ComebackGap;
  }

  /** One user's gamification state: the badge list and the stored counters and challenges. */
  class GamificationStore {
    var userBadges: seq<EarnedBadge>
    var todayActivity: seq<Activity>
    var lastLearningDay: Option<int>
    var nightLearning: int
    var morningLearning: int
    var storedChallenges: map<int, Challenge>
    var dailyChallenge: Option<Challenge>

    ghost predicate Valid()
      reads this
    {
      && DistinctIds(BadgesOf(userBadges))
      && (forall d :: d in storedChallenges ==> ChallengeOk(storedChallenges[d]))
      && (dailyChallenge.Some? ==> ChallengeOk(dailyChallenge.value))
    }

    constructor ()
      ensures Valid()
      ensures userBadges == [] && todayActivity == [] && lastLearningDay.None?
      ensures nightLearning == 0 && morningLearning == 0 && storedChallenges == map[] && dailyChallenge.None?
    {
      userBadges := [];
      todayActivity := [];
      lastLearningDay := None;
      nightLearning := 0;
      morningLearning := 0;
      storedChallenges := map[];
      dailyChallenge := None;
    }

    /**
     * `checkBadgeProgress`: nothing without a signed-in user; otherwise the
     * newly earned badges are appended after the held ones and returned.
     */
    method CheckBadgeProgress(signedIn: bool, action: string, s: UserStats, ctx: EventContext, now: Time)
      returns (newBadges: seq<EarnedBadge>)
      requires Valid()
      modifies this`userBadges
      ensures Valid()
      ensures newBadges == if signedIn then NewlyEarned(old(userBadges), action, s, ctx, now) else []
      ensures userBadges == old(userBadges) + newBadges
    {
      if !signedIn {
        return [];
      }
      newBadges := EvaluateBadges(userBadges, action, s, ctx, now);
      CatalogueIdsDistinct();
      SelectedDistinct(userBadges, Catalogue, action, s, ctx);
      AppendKeepsDistinct(userBadges, newBadges);
      userBadges := userBadges + newBadges;
    }

    /** `generateDailyChallenge`: load today's challenge, or start the picked one and store it. */
    method GenerateDailyChallenge(now: Time, pick: nat)
      requires Valid() && pick < |Challenges|
      modifies this`storedChallenges, this`dailyChallenge
      ensures Valid()
      ensures dailyChallenge == Some(DailyChallengeFor(old(storedChallenges), DayOf(now), pick))
      ensures storedChallenges == old(storedChallenges)[DayOf(now) := dailyChallenge.value]
    {
      var day := DayOf(now);
      ChallengesStartOk();
      if day in storedChallenges {
        dailyChallenge := Some(storedChallenges[day]);
      } else {
        var c := Challenges[pick];
        dailyChallenge := Some(c);
        storedChallenges := storedChallenges[day := c];
      }
    }

    /**
     * `updateChallengeProgress`: nothing when there is no challenge or it is
     * completed; otherwise the advanced challenge replaces the cell and is
     * stored under today, and `fired` reports the completion transition.
     */
    method UpdateChallengeProgress(action: string, data: ActivityData, now: Time) returns (fired: bool)
      requires Valid()
      modifies this`storedChallenges, this`dailyChallenge
      ensures Valid()
      ensures old(dailyChallenge).None? || old(dailyChallenge).value.completed ==>
        !fired && dailyChallenge == old(dailyChallenge) && storedChallenges == old(storedChallenges)
      ensures old(dailyChallenge).Some? && !old(dailyChallenge).value.completed ==>
        var r := AdvanceChallenge(old(dailyChallenge).value, action, data);
        && dailyChallenge == r
        && storedChallenges == old(storedChallenges)[DayOf(now) := r.value]
        && (fired <==> Fires(old(dailyChallenge).value, r))
      ensures fired ==> dailyChallenge.Some? && dailyChallenge.value.completed
    {
      if dailyChallenge.None? || dailyChallenge.value.completed {
        return false;
      }
      var c := dailyChallenge.value;
      var r := AdvanceChallenge(c, action, data);
      dailyChallenge := r;
      storedChallenges := storedChallenges[DayOf(now) := r.value];
      fired := Fires(c, r);
    }

    /** The storage writes of `recordActivity`: log, learning day and hour counters. */
    method LogActivity(kind: string, now: Time, hour: int)
      modifies this`todayActivity, this`lastLearningDay, this`nightLearning, this`morningLearning
      ensures todayActivity == old(todayActivity) + [Activity(kind, now)]
      ensures lastLearningDay == Some(DayOf(now))
      ensures nightLearning == old(nightLearning) + (if kind == CourseCompletedAction && NightHour(hour) then 1 else 0)
      ensures morningLearning == old(morningLearning) + (if kind == CourseCompletedAction && MorningHour(hour) then 1 else 0)
    {
      todayActivity := todayActivity + [Activity(kind, now)];
      lastLearningDay := Some(DayOf(now));
      if kind == CourseCompletedAction {
        if NightHour(hour) {
          nightLearning := nightLearning + 1;
        }
        if MorningHour(hour) {
          morningLearning := morningLearning + 1;
        }
      }
    }

    /** `updateChallengeProgress` followed by the `earnXP` timers of the new badges and of the reward. */
    method ScheduleGrants(newBadges: seq<EarnedBadge>, kind: string, data: ActivityData, now: Time)
      returns (grants: seq<Grant>)
      requires Valid()
      modifies this`storedChallenges, this`dailyChallenge
      ensures Valid()
      ensures old(dailyChallenge).None? || old(dailyChallenge).value.completed ==>
        dailyChallenge == old(dailyChallenge) && storedChallenges == old(storedChallenges) &&
        grants == Schedule(newBadges, None)
      ensures old(dailyChallenge).Some? && !old(dailyChallenge).value.completed ==>
        var r := AdvanceChallenge(old(dailyChallenge).value, kind, data);
        && dailyChallenge == r
        && storedChallenges == old(storedChallenges)[DayOf(now) := r.value]
        && grants == Schedule(newBadges, if Fires(old(dailyChallenge).value, r) then Some(old(dailyChallenge).value.reward) else None)
    {
      var reward := if dailyChallenge.Some? then dailyChallenge.value.reward else 0;
      var fired := UpdateChallengeProgress(kind, data, now);
      grants := Schedule(newBadges, if fired then Some(reward) else None);
    }

    /**
     * `recordActivity`: log the activity, bump the hour counters for a course
     * completion, evaluate badges against the counters and learning day as
     * now stored (so the gap is measured from today), advance the challenge,
     * and return the `earnXP` timers in firing order: one per new badge and
     * the challenge reward when the challenge has just been completed.
     */
    method RecordActivity(signedIn: bool, kind: string, data: ActivityData, s: UserStats, now: Time, hour: int)
      returns (newBadges: seq<EarnedBadge>, grants: seq<Grant>)
      requires Valid()
      modifies this
      ensures Valid()
      ensures todayActivity == old(todayActivity) + [Activity(kind, now)]
      ensures lastLearningDay == Some(DayOf(now))
      ensures nightLearning == old(nightLearning) + (if kind == CourseCompletedAction && NightHour(hour) then 1 else 0)
      ensures morningLearning == old(morningLearning) + (if kind == CourseCompletedAction && MorningHour(hour) then 1 else 0)
      ensures newBadges == if signedIn then
        NewlyEarned(old(userBadges), kind, s,
                    ContextAsWritten(old(todayActivity), old(nightLearning), old(morningLearning), old(lastLearningDay),
                                     kind, now, hour), now)
        else []
      ensures userBadges == old(userBadges) + newBadges
      ensures old(dailyChallenge).None? || old(dailyChallenge).value.completed ==>
        dailyChallenge == old(dailyChallenge) && storedChallenges == old(storedChallenges) &&
        grants == Schedule(newBadges, None)
      ensures old(dailyChallenge).Some? && !old(dailyChallenge).value.completed ==>
        var r := AdvanceChallenge(old(dailyChallenge).value, kind, data);
        && dailyChallenge == r
        && storedChallenges == old(storedChallenges)[DayOf(now) := r.value]
        && grants == Schedule(newBadges, if Fires(old(dailyChallenge).value, r) then Some(old(dailyChallenge).value.reward) else None)
    {
      LogActivity(kind, now, hour);
      var ctx := EventContext(TodayCompletions(todayActivity, DayOf(now)), hour, nightLearning, morningLearning,
                              SinceLastLearning(lastLearningDay, now));
      assert ctx == ContextAsWritten(old(todayActivity), old(nightLearning), old(morningLearning), old(lastLearningDay),
                                     kind, now, hour);
      newBadges := CheckBadgeProgress(signedIn, kind, s, ctx, now);
      grants := ScheduleGrants(newBadges, kind, data, now);
    }
  }

  /** Joining two id-distinct lists with no id in common gives an id-distinct list. */
  lemma JoinDistinct(a: seq<Badge>, b: seq<Badge>)
    requires DistinctIds(a) && DistinctIds(b)
    requires forall i, j :: 0 <= i < |a| && 0 <= j < |b| ==> a[i].id != b[j].id
    ensures DistinctIds(a + b)
  {
    var ab := a + b;
    forall i, j | 0 <= i < j < |ab| ensures ab[i].id != ab[j].id {
      if j < |a| {
        assert ab[i] == a[i] && ab[j] == a[j];
      } else if i < |a| {
        assert ab[i] == a[i] && ab[j] == b[j - |a|];
      } else {
        assert ab[i] == b[i - |a|] && ab[j] == b[j - |a|];
      }
    }
  }

  /** No badge that is not held shares an id with a held badge. */
  lemma NoneHeld(held: seq<EarnedBadge>, gained: seq<EarnedBadge>)
    requires forall b :: b in BadgesOf(gained) ==> !Held(held, b.id)
    ensures forall i, j :: 0 <= i < |held| && 0 <= j < |gained| ==> BadgesOf(held)[i].id != BadgesOf(gained)[j].id
  {
    var a, b := BadgesOf(held), BadgesOf(gained);
    forall i, j | 0 <= i < |a| && 0 <= j < |b| ensures a[i].id != b[j].id {
      assert b[j] in b;
      assert held[i].badge == a[i];
    }
  }

  /** Appending badges that are not held and are distinct among themselves keeps the held list duplicate-free. */
  lemma {:induction false} AppendKeepsDistinct(held: seq<EarnedBadge>, gained: seq<EarnedBadge>)
    requires DistinctIds(BadgesOf(held)) && DistinctIds(BadgesOf(gained))
    requires forall b :: b in BadgesOf(gained) ==> !Held(held, b.id)
    ensures DistinctIds(BadgesOf(held + gained))
  {
    NoneHeld(held, gained);
    JoinDistinct(BadgesOf(held), BadgesOf(gained));
    assert BadgesOf(held + gained) == BadgesOf(held) + BadgesOf(gained);
  }
}
