/**
 * The dashboard's derived figures (web-app/src/components/dashboard/Dashboard.jsx):
 * the level, the XP inside the level and the XP still needed, the quiz
 * bonus, and the "next achievement" message with its medal.
 */
module Dashboard {
  import opened Common
  import opened Auth
  import Quiz

  /** `user?.progress?.totalXP || 0`. */
  function UserXP(x: Num): (r: int)
    ensures NumTruthy(x) ==> r == x.v
    ensures !NumTruthy(x) ==> r == 0
  {
    if NumTruthy(x) then x.v else 0
  }

  datatype LevelView = LevelView(level: int, inLevel: int, toNext: int)

  /**
   * `currentLevel`, `xpInCurrentLevel` (JavaScript remainder) and
   * `xpToNextLevel`. For a non-negative total: level at least 1, the XP in
   * the level within 0..99, the two parts summing to 100, and the level
   * and the XP inside it recomposing the total.
   */
  function ViewOf(xp: int): (v: LevelView)
    ensures v.level == Level(xp) && v.inLevel == JsRem(xp, 100) && v.toNext == 100 - v.inLevel
    ensures xp >= 0 ==>
      && v.level >= 1 && 0 <= v.inLevel <= 99 && 1 <= v.toNext <= 100
      && v.inLevel + v.toNext == 100
      && (v.level - 1) * 100 + v.inLevel == xp
  {
    var inLevel := JsRem(xp, 100);
    LevelView(xp / 100 + 1, inLevel, 100 - inLevel)
  }

  /**
   * A negative total breaks the ranges: `Math.floor` gives level 0 while
   * the truncating remainder is negative, so more than 100 XP is "needed".
   */
  lemma NegativeTotalOutOfRange()
    ensures ViewOf(-1) == LevelView(0, -1, 101)
  {
  }

  /** The dashboard and the account provider show the same level and in-level XP. */
  lemma AgreesWithProvider(s: AuthState)
    ensures ViewOf(UserXP(XPOf(s))).level == GetUserLevel(s)
    ensures ViewOf(UserXP(XPOf(s))).inLevel == GetLevelProgress(s)
  {
  }

  /** `Math.round(percentage / 10)`: one XP per ten percent. */
  function QuizBonus(percentage: real): (xp: int)
    ensures percentage / 10.0 - 0.5 < xp as real <= percentage / 10.0 + 0.5
    ensures 0.0 <= percentage <= 100.0 ==> 0 <= xp <= 10
  {
    RoundHalfUp(percentage / 10.0)
  }

  /** For the percentage a quiz reports, the bonus equals the XP the quiz itself awards. */
  lemma BonusMatchesQuizXP(score: int, total: int)
    requires total > 0
    ensures QuizBonus(score as real / total as real * 100.0) == Quiz.QuizXP(score, total)
  {
    var q := score as real / total as real;
    assert q * 100.0 / 10.0 == score as real * 10.0 / total as real by {
      assert q * total as real == score as real;
    }
  }

  /**
   * Finishing the quiz opened from the dashboard calls `earnXP` twice in
   * one event: in the quiz with its XP, then in `handleQuizComplete` with
   * the bonus, which is the same amount. Both calls read the user of the
   * same render, so the second dispatch writes the very counters the first
   * wrote and the quiz is credited once.
   */
  lemma QuizCreditedOnce(s: AuthState, st: Stored, score: int)
    requires s.user.Some?
    ensures var n := |Quiz.CorrectAnswers|;
      var patch := EarnPatch(s.user.value.progress, Quiz.QuizXP(score, n));
      var bonus := EarnPatch(s.user.value.progress, QuizBonus(score as real / n as real * 100.0));
      var once := Reduce(s, st, UpdateProgress(patch));
      && bonus == patch
      && once.Some?
      && Reduce(once.value.state, once.value.stored, UpdateProgress(bonus)) == once
  {
    var n := |Quiz.CorrectAnswers|;
    BonusMatchesQuizXP(score, n);
    var patch := EarnPatch(s.user.value.progress, Quiz.QuizXP(score, n));
    var base := if s.user.value.progress.Some? then s.user.value.progress.value else map[];
    assert Spread(Spread(base, patch), patch) == Spread(base, patch);
  }

  /** The achievement tiers, lowest first. */
  datatype Tier = Bronze | Silver | Gold

  function Rank(t: Tier): int {
    match t
    case Bronze => 0
    case Silver => 1
    case Gold => 2
  }

  /** The next-achievement message. */
  function NextAchievementMessage(xp: int): (m: string)
    ensures xp < 50 ==> m == "Complete 3 courses to earn your first badge!"
    ensures 50 <= xp < 100 ==> m == "Reach 100 XP to unlock Level 2!"
    ensures xp >= 100 ==> m == "Keep learning to unlock more achievements!"
  {
    if xp < 50 then "Complete 3 courses to earn your first badge!"
    else if xp < 100 then "Reach 100 XP to unlock Level 2!"
    else "Keep learning to unlock more achievements!"
  }

  /** The medal beside the message. */
  function Medal(xp: int): (t: Tier)
    ensures t == Bronze <==> xp < 50
    ensures t == Silver <==> 50 <= xp < 100
    ensures t == Gold <==> xp >= 100
  {
    if xp < 50 then Bronze else if xp < 100 then Silver else Gold
  }

  /** The medal never goes down as XP grows. */
  lemma MedalMonotone(a: int, b: int)
    requires a <= b
    ensures Rank(Medal(a)) <= Rank(Medal(b))
  {
  }

  /** Message and medal use the same tiers: each medal goes with exactly one message. */
  lemma MessageMatchesMedal(a: int, b: int)
    ensures Medal(a) == Medal(b) <==> NextAchievementMessage(a) == NextAchievementMessage(b)
  {
  }
}
