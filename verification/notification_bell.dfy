/**
 * The bell's derived values (web-app/src/components/notifications/NotificationBell.jsx):
 * the unread count and its capped label, the relative-time text and the
 * icon chosen by notification type.
 */
module NotificationBell {
  import opened Common
  import opened Notifications

  /** `notifications.filter(n => !n.read).length`. */
  function UnreadCount(ns: seq<Notification>): (n: nat)
    ensures n <= |ns|
    ensures n == 0 <==> forall i :: 0 <= i < |ns| ==> ns[i].read
  {
    if ns == [] then 0 else UnreadCount(ns[..|ns| - 1]) + (if ns[|ns| - 1].read then 0 else 1)
  }

  /** Counting over a concatenation adds the counts. */
  lemma {:induction false} UnreadCountAppend(a: seq<Notification>, b: seq<Notification>)
    ensures UnreadCount(a + b) == UnreadCount(a) + UnreadCount(b)
    decreases |b|
  {
    if b != [] {
      UnreadCountAppend(a, b[..|b| - 1]);
      assert (a + b)[..|a + b| - 1] == a + b[..|b| - 1];
      assert (a + b)[|a + b| - 1] == b[|b| - 1];
    } else {
      assert a + b == a;
    }
  }

  /** Prepending one unread item raises the count by exactly one. */
  lemma PrependUnread(n: Notification, ns: seq<Notification>)
    requires !n.read
    ensures UnreadCount([n] + ns) == UnreadCount(ns) + 1
  {
    UnreadCountAppend([n], ns);
    assert [n][..0] == [];
  }

  /** After marking everything read nothing is unread. */
  lemma MarkAllClearsCount(ns: seq<Notification>)
    ensures UnreadCount(MarkAll(ns)) == 0
  {
    MarkAllIdempotent(ns);
  }

  /** Unread items carrying the given id. */
  function UnreadWith(ns: seq<Notification>, id: int): (n: nat)
    ensures n <= UnreadCount(ns)
    ensures n == 0 <==> forall i :: 0 <= i < |ns| ==> ns[i].id != id || ns[i].read
  {
    if ns == [] then 0
    else UnreadWith(ns[..|ns| - 1], id) + (if ns[|ns| - 1].id == id && !ns[|ns| - 1].read then 1 else 0)
  }

  /** Marking one id read lowers the count by exactly the unread items carrying that id. */
  lemma {:induction false} MarkReadCount(ns: seq<Notification>, id: int)
    ensures UnreadCount(MarkRead(ns, id)) == UnreadCount(ns) - UnreadWith(ns, id)
    decreases |ns|
  {
    if ns != [] {
      var init := ns[..|ns| - 1];
      MarkReadCount(init, id);
      var r := MarkRead(ns, id);
      assert r[..|r| - 1] == MarkRead(init, id);
      assert r[|r| - 1] == MarkOne(ns[|ns| - 1], id);
    }
  }

  /** The label on the bell: nothing for no unread item, the count up to 99, then `99+`. */
  function CountLabel(unread: int): (r: Option<string>)
    ensures r.None? <==> unread <= 0
    ensures unread > 99 ==> r == Some("99+")
    ensures 0 < unread <= 99 ==> r.Some? && AllDigits(r.value) && DecimalValue(r.value) == unread && 1 <= |r.value| <= 2
  {
    if unread <= 0 then None
    else if unread > 99 then Some("99+")
    else
      DecimalRoundTrip(unread);
      DecimalShort(unread);
      Some(Decimal(unread))
  }

  lemma DecimalShort(n: nat)
    requires n <= 99
    ensures |Decimal(n)| <= 2
  {
    if n >= 10 {
      assert Decimal(n) == Decimal(n / 10) + [DigitChar(n % 10)];
    }
  }

  /** Whole units elapsed: minutes, then hours from minutes, then days from hours, each floored. */
  datatype Elapsed = Elapsed(minutes: int, hours: int, days: int)

  function ElapsedOf(diff: int): (e: Elapsed)
    ensures e.minutes == diff / MillisPerMinute
    ensures e.hours == diff / MillisPerHour && e.days == diff / MillisPerDay
  {
    FloorChain(diff);
    var minutes := diff / 60000;
    var hours := minutes / 60;
    Elapsed(minutes, hours, hours / 24)
  }

  /** Flooring minutes to hours and hours to days is flooring the milliseconds once. */
  lemma FloorChain(diff: int)
    ensures diff / 60000 / 60 == diff / 3600000
    ensures diff / 60000 / 60 / 24 == diff / 86400000
  {
  }

  /**
   * `getTimeAgo`: the largest whole unit that is positive, as `Nd ago`,
   * `Nh ago` or `Nm ago`; anything under a minute, or in the future, is
   * `Just now`. The difference is `now - timestamp` in milliseconds.
   */
  function TimeAgo(diff: int): (r: string)
    ensures diff >= MillisPerDay ==> r == Decimal(diff / MillisPerDay) + "d ago"
    ensures MillisPerHour <= diff < MillisPerDay ==> r == Decimal(diff / MillisPerHour) + "h ago"
    ensures MillisPerMinute <= diff < MillisPerHour ==> r == Decimal(diff / MillisPerMinute) + "m ago"
    ensures diff < MillisPerMinute ==> r == "Just now"
  {
    var e := ElapsedOf(diff);
    if e.days > 0 then Decimal(e.days) + "d ago"
    else if e.hours > 0 then Decimal(e.hours) + "h ago"
    else if e.minutes > 0 then Decimal(e.minutes) + "m ago"
    else "Just now"
  }

  /** `getNotificationIcon`: one icon per known type, a loudspeaker for any other. */
  function Icon(kind: string): (r: string)
    ensures r == "📢" <==> kind !in KnownKinds
  {
    if kind == "achievement" then "🏆"
    else if kind == "completion" then "✅"
    else if kind == "quiz" then "🧠"
    else if kind == "levelup" then "🚀"
    else if kind == "reminder" then "⏰"
    else if kind == "streak" then "🔥"
    else "📢"
  }

  const KnownKinds: set<string> := {"achievement", "completion", "quiz", "levelup", "reminder", "streak"}

  /** The six known types have six different icons. */
  lemma IconsDistinct(a: string, b: string)
    requires a in KnownKinds && b in KnownKinds && a != b
    ensures Icon(a) != Icon(b)
  {
  }
}
