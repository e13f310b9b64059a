/**
 * The in-app notification list (web-app/src/context/NotificationContext.jsx):
 * a list cell, newest first, changed by adding (prepend), marking one or all
 * items read, and clearing; plus the notification builders and the quiz
 * percentage rule.
 *
 * A notification is built as `{id, timestamp, read: false, ...input}`, so a
 * field the input carries overrides the generated one; the input's optional
 * `id`, `timestamp` and `read` are modelled for that reason.
 */
module Notifications {
  import opened Common

  datatype Notification = Notification(
    id: int, timestamp: Time, read: bool, kind: string, title: string, message: string, priority: string)

  /** What a caller passes to `addNotification`; `None` is an absent property. */
  datatype NotificationInput = NotificationInput(
    id: Option<int>, timestamp: Option<Time>, read: Option<bool>,
    kind: string, title: string, message: string, priority: string)

  /** An input carrying only the displayed fields, as every builder below produces. */
  function Plain(kind: string, title: string, message: string, priority: string): (n: NotificationInput)
    ensures n.id.None? && n.timestamp.None? && n.read.None?
  {
    NotificationInput(None, None, None, kind, title, message, priority)
  }

  /** The stored item: generated id and timestamp, unread, each overridden by the input's own field. */
  function Build(input: NotificationInput, freshId: int, now: Time): (n: Notification)
    ensures n.id == input.id.GetOr(freshId) && n.timestamp == input.timestamp.GetOr(now)
    ensures n.read == input.read.GetOr(false)
    ensures n.kind == input.kind && n.title == input.title && n.message == input.message && n.priority == input.priority
  {
    Notification(input.id.GetOr(freshId), input.timestamp.GetOr(now), input.read.GetOr(false),
                 input.kind, input.title, input.message, input.priority)
  }

  /** `prev.map(n => n.id === id ? {...n, read: true} : n)`. */
  function MarkRead(ns: seq<Notification>, id: int): (r: seq<Notification>)
    ensures |r| == |ns|
    ensures forall i :: 0 <= i < |ns| ==> r[i] == if ns[i].id == id then ns[i].(read := true) else ns[i]
  {
    if ns == [] then [] else MarkRead(ns[..|ns| - 1], id) + [MarkOne(ns[|ns| - 1], id)]
  }

  function MarkOne(n: Notification, id: int): Notification {
    if n.id == id then n.(read := true) else n
  }

  /** `prev.map(n => ({...n, read: true}))`. */
  function MarkAll(ns: seq<Notification>): (r: seq<Notification>)
    ensures |r| == |ns|
    ensures forall i :: 0 <= i < |ns| ==> r[i] == ns[i].(read := true)
  {
    if ns == [] then [] else MarkAll(ns[..|ns| - 1]) + [ns[|ns| - 1].(read := true)]
  }

  /** Marking everything read twice is the same as once. */
  lemma MarkAllIdempotent(ns: seq<Notification>)
    ensures MarkAll(MarkAll(ns)) == MarkAll(ns)
    ensures forall i :: 0 <= i < |ns| ==> MarkAll(ns)[i].read
  {
    var once := MarkAll(ns);
    assert MarkAll(once) == once by {
      forall i | 0 <= i < |once| ensures MarkAll(once)[i] == once[i] {
        assert once[i] == ns[i].(read := true);
      }
    }
  }

  /** Marking one id read, then all, is the same as marking all. */
  lemma MarkAllAbsorbsMarkRead(ns: seq<Notification>, id: int)
    ensures MarkAll(MarkRead(ns, id)) == MarkAll(ns)
  {
    var a, b := MarkAll(MarkRead(ns, id)), MarkAll(ns);
    assert |a| == |b|;
    forall i | 0 <= i < |a| ensures a[i] == b[i] {
      assert MarkRead(ns, id)[i] == MarkOne(ns[i], id);
    }
  }

  /** Marking an id that no item carries changes nothing. */
  lemma MarkReadUnknownId(ns: seq<Notification>, id: int)
    requires forall i :: 0 <= i < |ns| ==> ns[i].id != id
    ensures MarkRead(ns, id) == ns
  {
    var r := MarkRead(ns, id);
    assert |r| == |ns|;
    forall i | 0 <= i < |ns| ensures r[i] == ns[i] {
    }
  }

  /**
   * `notifyQuizResult`'s percentage, `Math.round(score / total * 100)`.
   * With a zero total JavaScript yields a non-finite value; that is `None`.
   */
  function QuizPercentage(score: int, total: int): (p: Option<int>)
    ensures p.Some? <==> total != 0
    ensures total != 0 ==> p.value == RoundHalfUp(score as real * 100.0 / total as real)
  {
    if total == 0 then None else Some(RoundHalfUp(score as real * 100.0 / total as real))
  }

  /**
   * The "good score" test, `percentage >= 70`: with a zero total the
   * percentage is +Infinity for a positive score and NaN or -Infinity otherwise.
   */
  predicate GoodScore(score: int, total: int) {
    var p := QuizPercentage(score, total);
    if p.Some? then p.value >= 70 else score > 0
  }

  /** With a positive total the rounding threshold is exact: 69.5% or more is good. */
  lemma GoodScoreCrossMultiplied(score: int, total: int)
    requires total > 0
    ensures GoodScore(score, total) <==> 200 * score >= 139 * total
  {
    var x := score as real * 100.0 / total as real;
    RoundAtLeast(x, 70);
    ScaledThreshold(score as real * 100.0, total as real, 69.5);
    assert x >= 69.5 <==> score as real * 100.0 >= 69.5 * total as real;
  }

  /** `Math.round(x) >= n` exactly when `x` is at least half below `n`. */
  lemma RoundAtLeast(x: real, n: int)
    ensures RoundHalfUp(x) >= n <==> x >= n as real - 0.5
  {
  }

  /** Dividing by a positive number keeps a threshold when the threshold is scaled by it. */
  lemma ScaledThreshold(a: real, t: real, c: real)
    requires t > 0.0
    ensures a / t >= c <==> a >= c * t
  {
    var q := a / t;
    assert q * t == a;
    if q >= c {
      assert q * t >= c * t;
    } else {
      assert q * t < c * t;
    }
  }

  /** The input `notifyQuizResult` shows: high priority and a celebratory title exactly for a good score. */
  function QuizResultNotice(score: int, total: int, message: string): (n: NotificationInput)
    ensures n.kind == "quiz" && n.message == message
    ensures n.priority == "high" <==> GoodScore(score, total)
    ensures n.priority == (if GoodScore(score, total) then "high" else "medium")
    ensures n.id.None? && n.read.None?
  {
    var good := GoodScore(score, total);
    Plain("quiz", if good then "🎯 Great Quiz Score!" else "📝 Quiz Completed", message, if good then "high" else "medium")
  }

  /** `notifyAchievement`: an achievement item of high priority. */
  function AchievementNotice(message: string): (n: NotificationInput)
    ensures n.kind == "achievement" && n.priority == "high" && n.message == message && n.read.None?
  {
    Plain("achievement", "🎉 Achievement Unlocked!", message, "high")
  }

  /** `notifyCourseComplete`: a completion item of high priority. */
  function CourseCompleteNotice(message: string): (n: NotificationInput)
    ensures n.kind == "completion" && n.priority == "high" && n.message == message && n.read.None?
  {
    Plain("completion", "✅ Course Completed!", message, "high")
  }

  /** `notifyLevelUp`: a level-up item of high priority. */
  function LevelUpNotice(message: string): (n: NotificationInput)
    ensures n.kind == "levelup" && n.priority == "high" && n.message == message && n.read.None?
  {
    Plain("levelup", "🚀 Level Up!", message, "high")
  }

  /** `notifyStudyReminder`: a reminder item of medium priority. */
  function StudyReminderNotice(message: string): (n: NotificationInput)
    ensures n.kind == "reminder" && n.priority == "medium" && n.message == message && n.read.None?
  {
    Plain("reminder", "📚 Study Reminder", message, "medium")
  }

  /** The provider's list cell, newest first. */
  class NotificationCenter {
    var notifications: seq<Notification>

    constructor ()
      ensures notifications == []
    {
      notifications := [];
    }

    /**
     * `addNotification`: prepend the built item and return its id. The
     * generated id (`Date.now() + Math.random()`) and the clock are inputs.
     */
    method AddNotification(input: NotificationInput, freshId: int, now: Time) returns (id: int)
      modifies this
      ensures notifications == [Build(input, freshId, now)] + old(notifications)
      ensures id == notifications[0].id
      ensures input.id.None? ==> id == freshId
      ensures input.read.None? ==> !notifications[0].read
    {
      var n := Build(input, freshId, now);
      notifications := [n] + notifications;
      id := n.id;
    }

    /**
     * `showNotification`: the browser notification depends on the
     * permission; the in-app list gains the item whatever the permission.
     */
    method ShowNotification(input: NotificationInput, permissionGranted: bool, freshId: int, now: Time)
      returns (id: int)
      modifies this
      ensures notifications == [Build(input, freshId, now)] + old(notifications)
      ensures id == Build(input, freshId, now).id
    {
      id := AddNotification(input, freshId, now);
    }

    method MarkAsRead(id: int)
      modifies this
      ensures notifications == MarkRead(old(notifications), id)
    {
      notifications := MarkRead(notifications, id);
    }

    method MarkAllAsRead()
      modifies this
      ensures notifications == MarkAll(old(notifications))
    {
      notifications := MarkAll(notifications);
    }

    method ClearAllNotifications()
      modifies this
      ensures notifications == []
    {
      notifications := [];
    }
  }
}
