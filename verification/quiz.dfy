/**
 * The quiz component (web-app/src/components/quiz/Quiz.jsx): five fixed
 * questions, a 30-second timer per question, a running score, and on the
 * last question the XP award, the perfect-score check and the stored quiz
 * streak with its Quiz Master check at exactly 5.
 *
 * The component's state variables are the fields of `QuizComponent`; the
 * value `QuizState` is their snapshot, and the transitions are specified
 * as functions on it.
 */
module Quiz {
  import opened Common

  /** The correct option of each of the five questions, in order. */
  const CorrectAnswers: seq<int> := [0, 2, 1, 2, 2]

  const QuestionTime: int := 30

  /** The quiz streak at which the Quiz Master achievement is announced. */
  const QuizMasterStreak: int := 5

  /** A snapshot of the component's state, plus the stored quiz streak. */
  datatype QuizState = QuizState(
    question: int,
    selected: Option<int>,
    showResult: bool,
    score: int,
    timeLeft: int,
    completed: bool,
    streak: int)

  /** What finishing the quiz reports: score, XP, and the two achievement checks. */
  datatype Outcome = Outcome(finalScore: int, total: int, xpEarned: int, perfect: bool, quizMaster: bool)

  const Start: QuizState := QuizState(0, None, false, 0, QuestionTime, false, 0)

  /**
   * The states the component reaches through its own handlers: a question
   * in range, a score no larger than the questions answered, and the result
   * shown exactly when the quiz is completed on the last question.
   */
  predicate QuizOk(s: QuizState) {
    && 0 <= s.question < |CorrectAnswers|
    && 0 <= s.score <= s.question + (if s.completed then 1 else 0)
    && (s.completed ==> s.question == |CorrectAnswers| - 1)
    && s.showResult == s.completed
    && 0 <= s.timeLeft <= QuestionTime
  }

  /** `Math.round(percentage / 10)` with `percentage = finalScore / total * 100`. */
  function QuizXP(finalScore: int, total: int): (xp: int)
    requires total > 0
    ensures 0 <= finalScore <= total ==> 0 <= xp <= 10
    ensures finalScore == total ==> xp == 10
  {
    TenthsInRange(finalScore, total);
    RoundHalfUp(finalScore as real * 10.0 / total as real)
  }

  /** The tenths of a score: within 0..10 for a score within the questions, exactly 10 for all of them. */
  lemma TenthsInRange(finalScore: int, total: int)
    requires total > 0
    ensures var x := finalScore as real * 10.0 / total as real;
      && (0 <= finalScore <= total ==> 0.0 <= x <= 10.0)
      && (finalScore == total ==> x == 10.0)
  {
    var t, a := total as real, finalScore as real * 10.0;
    DivideDifference(t * 10.0, a, t);
    DivideMultiple(10.0, t);
    if 0 <= finalScore <= total {
      DivideNonNegative(a, t);
      DivideNonNegative(t * 10.0 - a, t);
    }
  }

  /** With five questions each correct answer is worth exactly 2 XP. */
  lemma QuizXPForFive(finalScore: int)
    ensures QuizXP(finalScore, |CorrectAnswers|) == 2 * finalScore
  {
    assert finalScore as real * 10.0 / 5.0 == (2 * finalScore) as real;
  }

  /**
   * `handleNextQuestion`: score the current selection; before the last
   * question move on with a cleared selection and a fresh timer, on the
   * last one complete the quiz, bump the stored streak and report.
   */
  function Next(s: QuizState): (r: (QuizState, Option<Outcome>))
    requires 0 <= s.question < |CorrectAnswers|
    ensures var correct := s.selected == Some(CorrectAnswers[s.question]);
      r.0.score == s.score + (if correct then 1 else 0)
    ensures s.question < |CorrectAnswers| - 1 ==>
      && r.1.None? && r.0.question == s.question + 1 && r.0.selected.None? && r.0.timeLeft == QuestionTime
      && r.0.completed == s.completed && r.0.showResult == s.showResult && r.0.streak == s.streak
    ensures s.question == |CorrectAnswers| - 1 ==>
      && r.1.Some? && r.0.completed && r.0.showResult && r.0.question == s.question
      && r.0.selected == s.selected && r.0.timeLeft == s.timeLeft
      && r.0.streak == s.streak + 1
      && r.1.value.finalScore == r.0.score && r.1.value.total == |CorrectAnswers|
      && r.1.value.xpEarned == QuizXP(r.0.score, |CorrectAnswers|)
      && (r.1.value.perfect <==> r.0.score == |CorrectAnswers|)
      && (r.1.value.quizMaster <==> s.streak + 1 == QuizMasterStreak)
  {
    var correct := s.selected == Some(CorrectAnswers[s.question]);
    var score := s.score + (if correct then 1 else 0);
    if s.question < |CorrectAnswers| - 1 then
      (s.(question := s.question + 1, selected := None, timeLeft := QuestionTime, score := score), None)
    else
      var n := |CorrectAnswers|;
      var streak := s.streak + 1;
      (s.(completed := true, showResult := true, score := score, streak := streak),
       Some(Outcome(score, n, QuizXP(score, n), score * 100 == n * 100, streak == QuizMasterStreak)))
  }

  /** From a state the handlers reach, answering keeps it reachable and the final score within the questions. */
  lemma NextKeepsQuizOk(s: QuizState)
    requires QuizOk(s) && !s.completed
    ensures QuizOk(Next(s).0)
    ensures Next(s).1.Some? ==> 0 <= Next(s).1.value.finalScore <= |CorrectAnswers|
    ensures Next(s).1.Some? ==> 0 <= Next(s).1.value.xpEarned <= 10
  {
  }

  /**
   * The timer effect as written: tick while the question is open, and
   * call `handleNextQuestion` whenever the time reads 0, even when the
   * quiz is already completed.
   */
  function TimerEffectAsWritten(s: QuizState): (r: (QuizState, Option<Outcome>))
    requires 0 <= s.question < |CorrectAnswers|
    ensures s.timeLeft == 0 ==> r == Next(s)
  {
    if s.timeLeft > 0 && !s.showResult && !s.completed then (s.(timeLeft := s.timeLeft - 1), None)
    else if s.timeLeft == 0 then Next(s)
    else (s, None)
  }

  /**
   * As written, running out of time on the last question completes the
   * quiz with the time still at 0; the effect runs again because the
   * result flags changed, and the quiz is scored a second time: a correct
   * last answer reaches 6 of 5, and the streak is bumped twice.
   */
  lemma AsWrittenTimeoutScoresTwice(streak: int)
    ensures var s0 := QuizState(4, Some(2), false, 4, 0, false, streak);
      var first := TimerEffectAsWritten(s0);
      var second := TimerEffectAsWritten(first.0);
      && first.1.Some? && first.1.value.finalScore == 5
      && second.1.Some? && second.1.value.finalScore == 6 && second.1.value.xpEarned == 12
      && second.0.streak == streak + 2
  {
    QuizXPForFive(5);
    QuizXPForFive(6);
  }

  /** The timer effect with the completion guard: nothing happens once the quiz is over. */
  function TimerEffect(s: QuizState): (r: (QuizState, Option<Outcome>))
    requires 0 <= s.question < |CorrectAnswers|
    ensures s.completed ==> r == (s, None)
    ensures !s.completed && s.timeLeft == 0 ==> r == Next(s)
    ensures !s.completed && !s.showResult && s.timeLeft > 0 ==> r == (s.(timeLeft := s.timeLeft - 1), None)
  {
    if s.timeLeft > 0 && !s.showResult && !s.completed then (s.(timeLeft := s.timeLeft - 1), None)
    else if s.timeLeft == 0 && !s.completed then Next(s)
    else (s, None)
  }

  /** One quiz reports at most once: after the report every timer run is a no-op, and states stay reachable. */
  lemma TimerEffectKeepsQuizOk(s: QuizState)
    requires QuizOk(s)
    ensures QuizOk(TimerEffect(s).0)
    ensures TimerEffect(s).1.Some? ==> TimerEffect(s).0.completed && TimerEffect(TimerEffect(s).0).1.None?
  {
    if !s.completed && s.timeLeft == 0 {
      NextKeepsQuizOk(s);
    }
  }

  /** Until the quiz is completed, the timer effect as written and the guarded one agree. */
  lemma TimerEffectsAgree(s: QuizState)
    requires 0 <= s.question < |CorrectAnswers| && !s.completed
    ensures TimerEffectAsWritten(s) == TimerEffect(s)
  {
  }

  /** `getScoreMessage`: the tiers at 80, 60 and 40 percent, compared without division. */
  function ScoreMessage(score: int, total: int): (m: string)
    requires total > 0
    ensures score * 100 >= 80 * total ==> m == "Excellent! 🏆"
    ensures 60 * total <= score * 100 < 80 * total ==> m == "Good job! 👍"
    ensures 40 * total <= score * 100 < 60 * total ==> m == "Keep practicing! 💪"
    ensures score * 100 < 40 * total ==> m == "Need more study! 📚"
  {
    var percentage := score as real / total as real * 100.0;
    PercentageAtLeast(score, total, 80);
    PercentageAtLeast(score, total, 60);
    PercentageAtLeast(score, total, 40);
    if percentage >= 80.0 then "Excellent! 🏆"
    else if percentage >= 60.0 then "Good job! 👍"
    else if percentage >= 40.0 then "Keep practicing! 💪"
    else "Need more study! 📚"
  }

  /** `score / total * 100 >= t` compared without division. */
  lemma PercentageAtLeast(score: int, total: int, t: int)
    requires total > 0
    ensures score as real / total as real * 100.0 >= t as real <==> score * 100 >= t * total
  {
    var q := score as real / total as real;
    assert q * total as real == score as real;
    if q * 100.0 >= t as real {
      assert q * total as real * 100.0 >= t as real * total as real;
    } else {
      assert q * total as real * 100.0 < t as real * total as real;
    }
  }

  /** For the five-question quiz: 4 or 5 correct is excellent, 3 good, 2 keep practicing, fewer needs study. */
  lemma ScoreMessageForFive(score: int)
    requires 0 <= score <= 5
    ensures ScoreMessage(score, 5) == (if score >= 4 then "Excellent! 🏆" else if score == 3 then "Good job! 👍"
                                       else if score == 2 then "Keep practicing! 💪" else "Need more study! 📚")
  {
  }

  /** The component: its state variables and the stored streak. */
  class QuizComponent {
    var question: int
    var selected: Option<int>
    var showResult: bool
    var score: int
    var timeLeft: int
    var completed: bool
    var streak: int

    function Snapshot(): QuizState
      reads this
    {
      QuizState(question, selected, showResult, score, timeLeft, completed, streak)
    }

    constructor (storedStreak: int)
      ensures Snapshot() == Start.(streak := storedStreak)
      ensures QuizOk(Snapshot())
    {
      question := 0;
      selected := None;
      showResult := false;
      score := 0;
      timeLeft := QuestionTime;
      completed := false;
      streak := storedStreak;
    }

    /** `handleAnswerSelect`. */
    method SelectAnswer(i: int)
      modifies this`selected
      ensures Snapshot() == old(Snapshot()).(selected := Some(i))
    {
      selected := Some(i);
    }

    /** `handleNextQuestion`, step by step on the state variables. */
    method HandleNextQuestion() returns (outcome: Option<Outcome>)
      requires 0 <= question < |CorrectAnswers|
      modifies this
      ensures (Snapshot(), outcome) == Next(old(Snapshot()))
    {
      var correct := selected == Some(CorrectAnswers[question]);
      if correct {
        score := score + 1;
      }
      if question < |CorrectAnswers| - 1 {
        question := question + 1;
        selected := None;
        timeLeft := QuestionTime;
        outcome := None;
      } else {
        completed := true;
        showResult := true;
        var n := |CorrectAnswers|;
        streak := streak + 1;
        outcome := Some(Outcome(score, n, QuizXP(score, n), score * 100 == n * 100, streak == QuizMasterStreak));
      }
    }

    /**
     * One run of the timer effect as written: a tick, or a call of
     * `handleNextQuestion` whenever the time reads 0, completed or not.
     * Before completion this is the guarded effect and keeps the state
     * reachable.
     */
    method TimerFires() returns (outcome: Option<Outcome>)
      requires 0 <= question < |CorrectAnswers|
      modifies this
      ensures (Snapshot(), outcome) == TimerEffectAsWritten(old(Snapshot()))
      ensures 0 <= question < |CorrectAnswers|
      ensures !old(completed) && QuizOk(old(Snapshot())) ==> QuizOk(Snapshot())
    {
      if !completed {
        TimerEffectsAgree(Snapshot());
        if QuizOk(Snapshot()) {
          TimerEffectKeepsQuizOk(Snapshot());
        }
      }
      if timeLeft > 0 && !showResult && !completed {
        timeLeft := timeLeft - 1;
        outcome := None;
      } else if timeLeft == 0 {
        outcome := HandleNextQuestion();
      } else {
        outcome := None;
      }
    }

    /** `resetQuiz`: back to the first question; the stored streak is kept. */
    method ResetQuiz()
      modifies this
      ensures Snapshot() == Start.(streak := old(streak))
      ensures QuizOk(Snapshot())
    {
      question := 0;
      selected := None;
      showResult := false;
      score := 0;
      timeLeft := QuestionTime;
      completed := false;
    }
  }
}
