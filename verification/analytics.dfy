/**
 * Learning analytics (web-app/src/context/AnalyticsContext.jsx): the
 * session counters and the two stored logs appended by the tracking calls,
 * the learning patterns computed from the signed-in user's records
 * (completion rate, time slots, most active weekday), and the
 * recommendations derived from them.
 *
 * The stored logs (`learningAnalytics`, `quizAnalytics`) are sequences,
 * and hours and weekdays are read from timestamps in UTC.
 */
module Analytics {
  import opened Common

  /** One `learningAnalytics` record; `userId` is absent when nobody is signed in. */
  datatype Engagement = Engagement(
    contentId: string, timeSpent: int, completionPercentage: int, timestamp: Time, userId: Option<string>)

  /** One `quizAnalytics` record. */
  datatype QuizRecord = QuizRecord(
    quizId: string, score: int, totalQuestions: int, timeToComplete: int, timestamp: Time, userId: Option<string>)

  datatype Session = Session(
    startTime: Option<Time>,
    totalTimeSpent: int,
    activeTime: int,
    coursesViewed: seq<string>,
    quizzesTaken: seq<QuizRecord>,
    currentStreak: int)

  const InitialSession: Session := Session(None, 0, 0, [], [], 0)

  /** The computed patterns; rates and averages are exact rationals. */
  datatype Patterns = Patterns(
    preferredTimeSlots: seq<string>,
    averageSessionDuration: real,
    mostActiveDay: string,
    completionRate: real,
    engagementScore: real)

  const InitialPatterns: Patterns := Patterns([], 0.0, "", 0.0, 0.0)

  /** A record counts as completed from 80 percent on. */
  const CompletedThreshold: int := 80

  // ---------------------------------------------------------------------
  // Frequency ranking, as `Object.entries(counts).sort((a, b) => b - a)`

  lemma NoDuplicatesByMultiset(a: seq<string>, b: seq<string>)
    requires NoDuplicates(a) && multiset(a) == multiset(b)
    ensures NoDuplicates(b)
  {
    forall i, j | 0 <= i < j < |b| ensures b[i] != b[j] {
      OnceInDistinct(a, b[j]);
      EqualPairCountsTwice(b, i, j);
    }
  }

  /** Two equal positions make their value occur at least twice. */
  lemma EqualPairCountsTwice(b: seq<string>, i: nat, j: nat)
    requires i < j < |b|
    ensures b[i] == b[j] ==> multiset(b)[b[j]] >= 2
  {
    assert b == b[..j] + [b[j]] + b[j + 1..];
    assert b[..j][i] == b[i];
  }

  lemma {:induction false} OnceInDistinct(a: seq<string>, x: string)
    requires NoDuplicates(a)
    ensures multiset(a)[x] <= 1
    decreases |a|
  {
    if a != [] {
      var init := a[..|a| - 1];
      assert a == init + [a[|a| - 1]];
      OnceInDistinct(init, x);
      if a[|a| - 1] == x {
        assert x !in init by {
          forall i | 0 <= i < |init| ensures init[i] != x {
            assert a[i] == init[i];
          }
        }
      }
    }
  }

  /**
   * The distinct values of `xs`, most frequent first. Which of several
   * equally frequent values comes first is not stated.
   */
  function Ranking(xs: seq<string>): (r: seq<string>)
    ensures NoDuplicates(r)
    ensures forall x :: x in r <==> x in xs
    ensures SortedDesc(r, x => Occurrences(xs, x))
  {
    var distinct := Dedup(xs);
    var r := SortDesc(distinct, x => Occurrences(xs, x));
    NoDuplicatesByMultiset(distinct, r);
    assert forall x :: x in r <==> x in multiset(distinct);
    r
  }

  /** The first of a ranking is as frequent as any value. */
  lemma RankingHeadIsMostFrequent(xs: seq<string>, x: string)
    requires x in xs
    ensures Ranking(xs) != [] && Occurrences(xs, x) <= Occurrences(xs, Ranking(xs)[0])
  {
    var r := Ranking(xs);
    var k :| 0 <= k < |r| && r[k] == x;
    assert k == 0 || (0 <= 0 < k < |r|);
  }

  // ---------------------------------------------------------------------
  // Time slots and weekdays

  function HourOf(t: Time): (h: int)
    ensures 0 <= h < 24
  {
    (t / MillisPerHour) % 24
  }

  const Weekdays: seq<string> := ["Sunday", "Monday", "Tuesday", "Wednesday", "Thursday", "Friday", "Saturday"]

  /** The weekday name; day 0 of the epoch was a Thursday. */
  function WeekdayOf(t: Time): (d: string)
    ensures d in Weekdays && d != ""
  {
    Weekdays[(t / MillisPerDay + 4) % 7]
  }

  /** The slot of an hour: before 12 morning, before 17 afternoon, else evening. */
  function Slot(hour: int): (s: string)
    ensures s == "Morning" <==> hour < 12
    ensures s == "Afternoon" <==> 12 <= hour < 17
    ensures s == "Evening" <==> hour >= 17
  {
    if hour < 12 then "Morning" else if hour < 17 then "Afternoon" else "Evening"
  }

  function SlotsOf(data: seq<Engagement>): (r: seq<string>)
    ensures |r| == |data| && forall i :: 0 <= i < |data| ==> r[i] == Slot(HourOf(data[i].timestamp))
  {
    if data == [] then [] else SlotsOf(data[..|data| - 1]) + [Slot(HourOf(data[|data| - 1].timestamp))]
  }

  function DaysOf(data: seq<Engagement>): (r: seq<string>)
    ensures |r| == |data| && forall i :: 0 <= i < |data| ==> r[i] == WeekdayOf(data[i].timestamp)
    ensures forall d :: d in r ==> d != ""
  {
    if data == [] then [] else DaysOf(data[..|data| - 1]) + [WeekdayOf(data[|data| - 1].timestamp)]
  }

  /**
   * `getPreferredTimeSlots`: each slot that occurs, once, the most frequent
   * first.
   */
  function PreferredTimeSlots(data: seq<Engagement>): (r: seq<string>)
    ensures NoDuplicates(r) && |r| <= 3
    ensures forall s :: s in r <==> s in SlotsOf(data)
    ensures SortedDesc(r, s => Occurrences(SlotsOf(data), s))
  {
    var slots := SlotsOf(data);
    var r := Ranking(slots);
    SlotsAreThree(data);
    AtMostThree(r);
    r
  }

  lemma SlotsAreThree(data: seq<Engagement>)
    ensures forall s :: s in SlotsOf(data) ==> s in {"Morning", "Afternoon", "Evening"}
  {
    var slots := SlotsOf(data);
    forall s | s in slots ensures s in {"Morning", "Afternoon", "Evening"} {
      var i :| 0 <= i < |slots| && slots[i] == s;
    }
  }

  lemma AtMostThree(r: seq<string>)
    requires NoDuplicates(r) && forall s :: s in r ==> s in {"Morning", "Afternoon", "Evening"}
    ensures |r| <= 3
  {
    var elems := set s | s in r;
    assert elems <= {"Morning", "Afternoon", "Evening"};
    DistinctCard(r);
    assert |{"Morning", "Afternoon", "Evening"}| == 3;
    SubsetCard(elems, {"Morning", "Afternoon", "Evening"});
  }

  lemma {:induction false} DistinctCard(r: seq<string>)
    requires NoDuplicates(r)
    ensures |set s | s in r| == |r|
    decreases |r|
  {
    if r != [] {
      var init := r[..|r| - 1];
      DistinctCard(init);
      var last := r[|r| - 1];
      assert (set s | s in r) == (set s | s in init) + {last};
      assert last !in (set s | s in init) by {
        forall i | 0 <= i < |init| ensures init[i] != last {
          assert r[i] == init[i];
        }
      }
    }
  }

  lemma SubsetCard(a: set<string>, b: set<string>)
    requires a <= b
    ensures |a| <= |b|
  {
    assert b == a + (b - a);
  }

  /** `getMostActiveDay`: the head of the weekday ranking, or `Monday` when there is none. */
  function MostActiveDay(data: seq<Engagement>): (d: string)
    ensures data == [] ==> d == "Monday"
    ensures data != [] ==> d == Ranking(DaysOf(data))[0]
  {
    var days := DaysOf(data);
    var r := Ranking(days);
    assert data != [] ==> days[0] in r;
    assert r != [] ==> r[0] in days;
    if r != [] && r[0] != "" then r[0] else "Monday"
  }

  /** The most active day occurs in the data and no weekday occurs more often. */
  lemma MostActiveDayIsMostFrequent(data: seq<Engagement>, i: int)
    requires 0 <= i < |data|
    ensures MostActiveDay(data) in DaysOf(data)
    ensures Occurrences(DaysOf(data), DaysOf(data)[i]) <= Occurrences(DaysOf(data), MostActiveDay(data))
  {
    RankingHeadIsMostFrequent(DaysOf(data), DaysOf(data)[i]);
  }

  // ---------------------------------------------------------------------
  // Patterns and recommendations

  /** `analyticsData.filter(d => d.userId === user?.id)`: the user's records, each as often and in the order logged. */
  function UserRecords(data: seq<Engagement>, user: Option<string>): (r: seq<Engagement>)
    ensures |r| <= |data|
    ensures forall e :: e in r <==> e in data && e.userId == user
    ensures r == Filter(data, (e: Engagement) => e.userId == user)
  {
    var r := Filter(data, (e: Engagement) => e.userId == user);
    assert forall e :: e in r <==> e in multiset(r);
    r
  }

  function TotalTime(data: seq<Engagement>): int {
    if data == [] then 0 else TotalTime(data[..|data| - 1]) + data[|data| - 1].timeSpent
  }

  /** A record counted as completed: at 80 percent or more. */
  predicate Completed(e: Engagement) {
    e.completionPercentage >= CompletedThreshold
  }

  /** `data.filter(d => d.completionPercentage >= 80).length`. */
  function CompletedCount(data: seq<Engagement>): (n: nat)
    ensures n == |Filter(data, Completed)|
  {
    if data == [] then 0
    else
      var init := data[..|data| - 1];
      assert data == init + [data[|data| - 1]];
      CompletedCount(init) + (if Completed(data[|data| - 1]) then 1 else 0)
  }

  /**
   * `calculateLearningPatterns`: nothing changes when the user has no
   * records; otherwise the average time, the share of records at 80 percent
   * or more, their weighted score, the slots and the weekday.
   */
  function ComputePatterns(p: Patterns, data: seq<Engagement>, user: Option<string>): (r: Patterns)
    ensures UserRecords(data, user) == [] ==> r == p
    ensures UserRecords(data, user) != [] ==>
      var mine := UserRecords(data, user);
      && 0.0 <= r.completionRate <= 100.0
      && r.completionRate == Share(CompletedCount(mine), |mine|)
      && r.averageSessionDuration == Mean(TotalTime(mine), |mine|)
      && r.engagementScore == r.averageSessionDuration * 0.3 + r.completionRate * 0.7
      && r.preferredTimeSlots == PreferredTimeSlots(mine) && r.mostActiveDay == MostActiveDay(mine)
  {
    var mine := UserRecords(data, user);
    if mine == [] then p
    else
      var average := Mean(TotalTime(mine), |mine|);
      var rate := Share(CompletedCount(mine), |mine|);
      Patterns(PreferredTimeSlots(mine), average, MostActiveDay(mine), rate, average * 0.3 + rate * 0.7)
  }

  /** `total / n`, which times `n` gives back the total. */
  function Mean(total: int, n: nat): (m: real)
    requires n > 0
    ensures m * n as real == total as real
  {
    total as real / n as real
  }

  /** `k / n * 100`, the share of `k` out of `n` in percent. */
  function Share(k: nat, n: nat): (rate: real)
    requires 0 < n && k <= n
    ensures 0.0 <= rate <= 100.0 && rate * n as real == k as real * 100.0
  {
    ShareBounds(k, n);
    k as real / n as real * 100.0
  }

  /** A share of `k` out of `n` records, in percent, lies in 0..100 and times `n` gives back `100 k`. */
  lemma ShareBounds(k: nat, n: nat)
    requires 0 < n && k <= n
    ensures var rate := k as real / n as real * 100.0;
      0.0 <= rate <= 100.0 && rate * n as real == k as real * 100.0
  {
    var q := k as real / n as real;
    assert q * n as real == k as real;
    DivideDifference(n as real, k as real, n as real);
    DivideMultiple(1.0, n as real);
    DivideNonNegative(k as real, n as real);
    DivideNonNegative((n - k) as real, n as real);
  }

  datatype RecommendationKind = CompletionTip | EngagementTip | ConsistencyTip

  datatype Recommendation = Recommendation(kind: RecommendationKind, title: string, priority: string)

  function KindName(k: RecommendationKind): string {
    match k
    case CompletionTip => "completion"
    case EngagementTip => "engagement"
    case ConsistencyTip => "consistency"
  }

  function KindOrder(k: RecommendationKind): int {
    match k
    case CompletionTip => 0
    case EngagementTip => 1
    case ConsistencyTip => 2
  }

  function KindsOf(r: seq<Recommendation>): (ks: seq<RecommendationKind>)
    ensures |ks| == |r| && forall i :: 0 <= i < |r| ==> ks[i] == r[i].kind
  {
    seq(|r|, i requires 0 <= i < |r| => r[i].kind)
  }

  /**
   * `getPersonalizedRecommendations`: completion (high) under a 50 percent
   * completion rate, engagement (medium) under 15 minutes on average,
   * consistency (high) for a zero streak, in that order.
   */
  function Recommendations(p: Patterns, currentStreak: int): (r: seq<Recommendation>)
    ensures |r| <= 3
    ensures CompletionTip in KindsOf(r) <==> p.completionRate < 50.0
    ensures EngagementTip in KindsOf(r) <==> p.averageSessionDuration < 15.0
    ensures ConsistencyTip in KindsOf(r) <==> currentStreak == 0
    ensures forall i, j :: 0 <= i < j < |r| ==> KindOrder(r[i].kind) < KindOrder(r[j].kind)
    ensures forall i :: 0 <= i < |r| ==> r[i] == TipOf(r[i].kind)
  {
    var tail := LaterTips(p.averageSessionDuration < 15.0, currentStreak == 0);
    if p.completionRate < 50.0 then
      PrependCompletionTip(tail);
      [TipOf(CompletionTip)] + tail
    else
      tail
  }

  /** The engagement and consistency tips, each when its condition holds, in that order. */
  function LaterTips(shortSessions: bool, noStreak: bool): (r: seq<Recommendation>)
    ensures |r| <= 2
    ensures CompletionTip !in KindsOf(r)
    ensures EngagementTip in KindsOf(r) <==> shortSessions
    ensures ConsistencyTip in KindsOf(r) <==> noStreak
    ensures forall i, j :: 0 <= i < j < |r| ==> KindOrder(r[i].kind) < KindOrder(r[j].kind)
    ensures forall i :: 0 <= i < |r| ==> r[i] == TipOf(r[i].kind)
  {
    var e, s := TipOf(EngagementTip), TipOf(ConsistencyTip);
    var r := if shortSessions then (if noStreak then [e, s] else [e]) else (if noStreak then [s] else []);
    assert KindsOf(r) == if shortSessions then (if noStreak then [e.kind, s.kind] else [e.kind])
                         else (if noStreak then [s.kind] else []);
    r
  }

  /** The completion tip put in front of the later tips keeps the kinds ordered and each tip its own. */
  lemma PrependCompletionTip(tail: seq<Recommendation>)
    requires CompletionTip !in KindsOf(tail)
    requires forall i, j :: 0 <= i < j < |tail| ==> KindOrder(tail[i].kind) < KindOrder(tail[j].kind)
    requires forall i :: 0 <= i < |tail| ==> tail[i] == TipOf(tail[i].kind)
    ensures var r := [TipOf(CompletionTip)] + tail;
      && |r| == |tail| + 1
      && (forall k :: k in KindsOf(r) <==> k == CompletionTip || k in KindsOf(tail))
      && (forall i, j :: 0 <= i < j < |r| ==> KindOrder(r[i].kind) < KindOrder(r[j].kind))
      && (forall i :: 0 <= i < |r| ==> r[i] == TipOf(r[i].kind))
  {
    var r := [TipOf(CompletionTip)] + tail;
    assert KindsOf(r) == [CompletionTip] + KindsOf(tail) by {
      forall i | 1 <= i < |r| ensures KindsOf(r)[i] == KindsOf(tail)[i - 1] {
        assert r[i] == tail[i - 1];
      }
    }
    forall i | 0 <= i < |r| ensures r[i] == TipOf(r[i].kind) {
      if i > 0 {
        assert r[i] == tail[i - 1];
      }
    }
    forall i, j | 0 <= i < j < |r| ensures KindOrder(r[i].kind) < KindOrder(r[j].kind) {
      assert r[j] == tail[j - 1];
      if i == 0 {
        assert KindsOf(tail)[j - 1] == r[j].kind;
      } else {
        assert r[i] == tail[i - 1];
      }
    }
  }

  /** The title and priority each kind of recommendation carries: engagement is medium, the others high. */
  function TipOf(k: RecommendationKind): (t: Recommendation)
    ensures t.kind == k
    ensures t.priority == (if k == EngagementTip then "medium" else "high")
  {
    match k
    case CompletionTip => Recommendation(k, "Improve Course Completion", "high")
    case EngagementTip => Recommendation(k, "Extend Learning Sessions", "medium")
    case ConsistencyTip => Recommendation(k, "Build Learning Consistency", "high")
  }

  /** The provider: session counters, computed patterns and the two stored logs. */
  class AnalyticsStore {
    var session: Session
    var patterns: Patterns
    var learningAnalytics: seq<Engagement>
    var quizAnalytics: seq<QuizRecord>

    ghost predicate Valid()
      reads this
    {
      NoDuplicates(session.coursesViewed) && session.currentStreak == 0
    }

    constructor (storedEngagements: seq<Engagement>, storedQuizzes: seq<QuizRecord>)
      ensures Valid()
      ensures session == InitialSession && patterns == InitialPatterns
      ensures learningAnalytics == storedEngagements && quizAnalytics == storedQuizzes
    {
      session := InitialSession;
      patterns := InitialPatterns;
      learningAnalytics := storedEngagements;
      quizAnalytics := storedQuizzes;
    }

    method StartSession(now: Time)
      modifies this`session
      ensures session == old(session).(startTime := Some(now))
    {
      session := session.(startTime := Some(now));
    }

    /**
     * `trackContentEngagement`: one record appended to the stored log, the
     * time added to the session total, the content id added to the viewed
     * set (kept duplicate-free, first-view order).
     */
    method TrackContentEngagement(user: Option<string>, contentId: string, timeSpent: int, completionPercentage: int,
                                  now: Time)
      requires Valid()
      modifies this`session, this`learningAnalytics
      ensures Valid()
      ensures learningAnalytics == old(learningAnalytics) + [Engagement(contentId, timeSpent, completionPercentage, now, user)]
      ensures session.totalTimeSpent == old(session).totalTimeSpent + timeSpent
      ensures session.coursesViewed == if contentId in old(session).coursesViewed
        then old(session).coursesViewed else old(session).coursesViewed + [contentId]
      ensures session == old(session).(totalTimeSpent := session.totalTimeSpent, coursesViewed := session.coursesViewed)
    {
      learningAnalytics := learningAnalytics + [Engagement(contentId, timeSpent, completionPercentage, now, user)];
      DedupOfDistinctAppend(session.coursesViewed, contentId);
      session := session.(totalTimeSpent := session.totalTimeSpent + timeSpent,
                          coursesViewed := Dedup(session.coursesViewed + [contentId]));
    }

    /** `trackQuizPerformance`: one record appended to the session list and one to the stored log. */
    method TrackQuizPerformance(user: Option<string>, quizId: string, score: int, totalQuestions: int,
                                timeToComplete: int, now: Time)
      requires Valid()
      modifies this`session, this`quizAnalytics
      ensures Valid()
      ensures var q := QuizRecord(quizId, score, totalQuestions, timeToComplete, now, user);
        && session == old(session).(quizzesTaken := old(session).quizzesTaken + [q])
        && quizAnalytics == old(quizAnalytics) + [q]
    {
      var q := QuizRecord(quizId, score, totalQuestions, timeToComplete, now, user);
      session := session.(quizzesTaken := session.quizzesTaken + [q]);
      quizAnalytics := quizAnalytics + [q];
    }

    /** `calculateLearningPatterns` over the stored log, for the given user. */
    method CalculateLearningPatterns(user: Option<string>)
      modifies this`patterns
      ensures patterns == ComputePatterns(old(patterns), learningAnalytics, user)
    {
      patterns := ComputePatterns(patterns, learningAnalytics, user);
    }

    /**
     * `getPersonalizedRecommendations` on the current patterns and session.
     * No handler ever changes the session streak from 0, so the consistency
     * tip is always among them.
     */
    method GetPersonalizedRecommendations() returns (r: seq<Recommendation>)
      requires Valid()
      ensures r == Recommendations(patterns, session.currentStreak)
      ensures ConsistencyTip in KindsOf(r)
    {
      r := Recommendations(patterns, session.currentStreak);
    }
  }
}
