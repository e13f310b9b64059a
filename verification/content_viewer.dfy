/**
 * The lesson viewer (web-app/src/components/learning/ContentViewer.jsx):
 * the line-by-line rendering of the lesson text, the `m:ss` clock, the
 * play/pause interval that advances time and progress, and what
 * `handleCompletion` reports (XP, minutes, level-up, speed learner).
 *
 * The viewer always shows its built-in sample lesson (15 minutes, 15 XP).
 */
module ContentViewer {
  import opened Common

  // ---------------------------------------------------------------------
  // Lines of the lesson text

  /** `text.split('\n')`: the pieces between newlines, at least one. */
  function SplitLines(s: string): (r: seq<string>)
    ensures |r| >= 1
    ensures forall i :: 0 <= i < |r| ==> '\n' !in r[i]
  {
    if s == [] then [""]
    else
      var t := SplitLines(s[1..]);
      if s[0] == '\n' then [""] + t else [[s[0]] + t[0]] + t[1..]
  }

  /** `lines.join('\n')`, the inverse of `SplitLines`. */
  function JoinLines(ls: seq<string>): string
    requires |ls| >= 1
  {
    if |ls| == 1 then ls[0] else ls[0] + "\n" + JoinLines(ls[1..])
  }

  /** Splitting loses nothing: joining the pieces gives the text back. */
  lemma {:induction false} JoinSplit(s: string)
    ensures JoinLines(SplitLines(s)) == s
    decreases |s|
  {
    if s != [] {
      var t := SplitLines(s[1..]);
      JoinSplit(s[1..]);
      if s[0] == '\n' {
        assert ([""] + t)[1..] == t;
        assert s == [s[0]] + s[1..];
      } else {
        var r := [[s[0]] + t[0]] + t[1..];
        assert r[1..] == t[1..];
        assert s == [s[0]] + s[1..];
      }
    }
  }

  /** A piece without a newline followed by a newline is split off as the first line. */
  lemma {:induction false} SplitFirstLine(x: string, rest: string)
    requires '\n' !in x
    ensures SplitLines(x + "\n" + rest) == [x] + SplitLines(rest)
    ensures SplitLines(x) == [x]
    decreases |x|
  {
    if x != [] {
      SplitFirstLine(x[1..], rest);
      assert (x + "\n" + rest)[1..] == x[1..] + "\n" + rest;
      assert [x[0]] + x[1..] == x;
    } else {
      assert x + "\n" + rest == "\n" + rest;
      assert ("\n" + rest)[1..] == rest;
    }
  }

  /** Joining newline-free pieces and splitting again gives the pieces back. */
  lemma {:induction false} SplitJoin(ls: seq<string>)
    requires |ls| >= 1
    requires forall i :: 0 <= i < |ls| ==> '\n' !in ls[i]
    ensures SplitLines(JoinLines(ls)) == ls
    decreases |ls|
  {
    SplitFirstLine(ls[0], "");
    if |ls| > 1 {
      SplitJoin(ls[1..]);
      SplitFirstLine(ls[0], JoinLines(ls[1..]));
      assert [ls[0]] + ls[1..] == ls;
    }
  }

  predicate StartsWith(s: string, p: string) {
    |p| <= |s| && s[..|p|] == p
  }

  predicate EndsWith(s: string, p: string) {
    |p| <= |s| && s[|s| - |p|..] == p
  }

  /** Number of decimal digits at the start of `s`. */
  function LeadingDigits(s: string): (n: nat)
    ensures n <= |s|
    ensures AllDigits(s[..n])
    ensures n < |s| ==> !IsDigit(s[n])
  {
    if s == [] || !IsDigit(s[0]) then 0
    else
      var m := LeadingDigits(s[1..]);
      assert s[..m + 1] == [s[0]] + s[1..][..m];
      m + 1
  }

  /** `/^\d+\./`: one or more digits and then a full stop. */
  predicate NumberedLine(s: string) {
    var n := LeadingDigits(s);
    0 < n < |s| && s[n] == '.'
  }

  /** The digit count is the regular expression's: some digit prefix followed by a full stop. */
  lemma NumberedLineIff(s: string)
    ensures NumberedLine(s) <==> exists k :: 1 <= k < |s| && AllDigits(s[..k]) && s[k] == '.'
  {
    if k :| 1 <= k < |s| && AllDigits(s[..k]) && s[k] == '.' {
      LeadingDigitsCover(s, k);
      assert LeadingDigits(s) == k;
    }
  }

  /** A digit prefix of length `k` is counted in full. */
  lemma {:induction false} LeadingDigitsCover(s: string, k: nat)
    requires k <= |s| && AllDigits(s[..k])
    ensures LeadingDigits(s) >= k
  {
    if k > 0 {
      assert IsDigit(s[..k][0]);
      assert s[1..][..k - 1] == s[..k][1..];
      LeadingDigitsCover(s[1..], k - 1);
    }
  }

  /** No two adjacent asterisks. */
  predicate NoDoubleStar(s: string) {
    forall i :: 0 <= i < |s| - 1 ==> !(s[i] == '*' && s[i + 1] == '*')
  }

  /** `s.replace(/\*\*\/g, '')`: every `**`, scanning left to right, removed. */
  function RemoveDoubleStars(s: string): (r: string)
    ensures |r| <= |s|
    ensures NoDoubleStar(r)
    ensures s != [] && s[0] != '*' ==> r != [] && r[0] == s[0]
    ensures NoDoubleStar(s) ==> r == s
  {
    if s == [] then []
    else if |s| >= 2 && s[0] == '*' && s[1] == '*' then RemoveDoubleStars(s[2..])
    else
      var t := RemoveDoubleStars(s[1..]);
      assert NoDoubleStar(s) ==> NoDoubleStar(s[1..]) by {
        if NoDoubleStar(s) {
          forall i | 0 <= i < |s[1..]| - 1 ensures !(s[1..][i] == '*' && s[1..][i + 1] == '*') {
            assert s[1..][i] == s[i + 1] && s[1..][i + 1] == s[i + 2];
          }
        }
      }
      var r := [s[0]] + t;
      assert NoDoubleStar(r) by {
        forall i | 0 <= i < |r| - 1 ensures !(r[i] == '*' && r[i + 1] == '*') {
          if i > 0 {
            assert r[i] == t[i - 1] && r[i + 1] == t[i];
          }
        }
      }
      r
  }

  /** A slice of a string without adjacent asterisks has none either. */
  lemma SliceNoDoubleStar(s: string, a: nat, b: nat)
    requires a <= b <= |s| && NoDoubleStar(s)
    ensures NoDoubleStar(s[a..b])
  {
    var t := s[a..b];
    forall i | 0 <= i < |t| - 1 ensures !(t[i] == '*' && t[i + 1] == '*') {
      assert t[i] == s[a + i] && t[i + 1] == s[a + i + 1];
    }
  }

  /** Trimming a string without adjacent asterisks leaves none. */
  lemma TrimNoDoubleStar(s: string)
    requires NoDoubleStar(s)
    ensures NoDoubleStar(Trim(s))
  {
    var a, r := SpacesFrom(s, 0), Trim(s);
    SliceNoDoubleStar(s, a, a + |r|);
  }

  /** How one line of the lesson text is shown. */
  datatype Block =
    | Heading3(text: string)
    | Heading2(text: string)
    | BoldLine(text: string)
    | NumberedItem(line: string)
    | Paragraph(line: string)
    | LineBreak

  /**
   * The rendering of one line, first match wins: `###`, `##`, a line both
   * starting and ending with `**`, a numbered line, any other non-blank
   * line, and a break for a blank one. The heading markers are the line's
   * first occurrence of them, so `replace` removes the leading marker.
   */
  function Classify(line: string): (b: Block)
    ensures b.Heading3? <==> StartsWith(line, "###")
    ensures b.Heading2? <==> StartsWith(line, "##") && !StartsWith(line, "###")
    ensures b.BoldLine? <==> !StartsWith(line, "##") && StartsWith(line, "**") && EndsWith(line, "**")
    ensures b.NumberedItem? <==>
      !StartsWith(line, "##") && !(StartsWith(line, "**") && EndsWith(line, "**")) && NumberedLine(line)
    ensures b.Paragraph? <==>
      !StartsWith(line, "##") && !(StartsWith(line, "**") && EndsWith(line, "**")) && !NumberedLine(line)
      && !Blank(line)
    ensures b.LineBreak? ==> Blank(line)
    ensures b.Heading3? ==> b.text == Trim(line[3..])
    ensures b.Heading2? ==> b.text == Trim(line[2..])
    ensures b.BoldLine? ==> b.text == Trim(RemoveDoubleStars(line))
    ensures b.NumberedItem? || b.Paragraph? ==> b.line == line
  {
    ThreeMarksAreTwo(line);
    if StartsWith(line, "###") then Heading3(Trim(line[3..]))
    else if StartsWith(line, "##") then Heading2(Trim(line[2..]))
    else if StartsWith(line, "**") && EndsWith(line, "**") then BoldLine(Trim(RemoveDoubleStars(line)))
    else if NumberedLine(line) then NumberedItem(line)
    else if !Blank(line) then Paragraph(line)
    else LineBreak
  }

  /** A line starting with `###` also starts with `##`. */
  lemma ThreeMarksAreTwo(line: string)
    ensures StartsWith(line, "###") ==> StartsWith(line, "##")
  {
    if StartsWith(line, "###") {
      assert line[..2] == line[..3][..2];
    }
  }

  /** The text of a bold line keeps no `**` marker. */
  lemma BoldTextHasNoMarkers(line: string)
    requires Classify(line).BoldLine?
    ensures NoDoubleStar(Classify(line).text)
  {
    TrimNoDoubleStar(RemoveDoubleStars(line));
  }

  /** The rendered lesson: one block per line of the text. */
  function Render(text: string): (bs: seq<Block>)
    ensures |bs| == |SplitLines(text)| && |bs| >= 1
    ensures forall i :: 0 <= i < |bs| ==> bs[i] == Classify(SplitLines(text)[i])
  {
    var ls := SplitLines(text);
    seq(|ls|, i requires 0 <= i < |ls| => Classify(ls[i]))
  }

  // ---------------------------------------------------------------------
  // The clock

  /** `s.padStart(2, '0')`: zeros in front up to two characters. */
  function PadTwo(s: string): (r: string)
    ensures |r| == if |s| >= 2 then |s| else 2
    ensures r[|r| - |s|..] == s
    ensures forall i :: 0 <= i < |r| - |s| ==> r[i] == '0'
  {
    if |s| >= 2 then s else seq(2 - |s|, _ => '0') + s
  }

  /** Leading zeros do not change a decimal value. */
  lemma {:induction false} ZeroPrefixValue(s: string, k: nat)
    requires AllDigits(s) && k <= |s|
    requires forall i :: 0 <= i < k ==> s[i] == '0'
    ensures DecimalValue(s) == DecimalValue(s[k..])
    decreases |s|
  {
    if k < |s| {
      var init := s[..|s| - 1];
      ZeroPrefixValue(init, k);
      assert s[k..][..|s[k..]| - 1] == init[k..];
    } else {
      ZeroesValue(s);
      assert s[k..] == [];
    }
  }

  lemma {:induction false} ZeroesValue(s: string)
    requires forall i :: 0 <= i < |s| ==> s[i] == '0'
    ensures AllDigits(s) && DecimalValue(s) == 0
    decreases |s|
  {
    if s != [] {
      ZeroesValue(s[..|s| - 1]);
    }
  }

  /** The seconds of the clock: two digits whose value is `n`. */
  function Seconds(n: nat): (r: string)
    requires n < 60
    ensures |r| == 2 && AllDigits(r) && DecimalValue(r) == n
  {
    var d := Decimal(n);
    DecimalRoundTrip(n);
    var r := PadTwo(d);
    assert AllDigits(r) by {
      forall i | 0 <= i < |r| ensures IsDigit(r[i]) {
        if i >= |r| - |d| {
          assert r[i] == r[|r| - |d|..][i - (|r| - |d|)];
        }
      }
    }
    ZeroPrefixValue(r, |r| - |d|);
    r
  }

  /**
   * The clock shown beside the progress bar: whole minutes, a colon, and
   * the remaining seconds padded to two digits.
   */
  function FormatTimer(t: nat): (r: string)
    ensures ReadsAsClock(r, t / 60, t % 60)
  {
    ClockText(t / 60, t % 60)
  }

  /**
   * `r` has the form `m:ss`: the digits before the colon read as `minutes`,
   * and the two digits after it as `seconds`.
   */
  predicate ReadsAsClock(r: string, minutes: nat, seconds: nat) {
    && |r| >= 4 && r[|r| - 3] == ':'
    && AllDigits(r[..|r| - 3]) && DecimalValue(r[..|r| - 3]) == minutes
    && AllDigits(r[|r| - 2..]) && DecimalValue(r[|r| - 2..]) == seconds
  }

  /** The minutes, a colon, and the seconds padded to two digits. */
  function ClockText(minutes: nat, seconds: nat): (r: string)
    requires seconds < 60
    ensures ReadsAsClock(r, minutes, seconds)
  {
    var m := Decimal(minutes);
    var s := Seconds(seconds);
    DecimalRoundTrip(minutes);
    ColonSplit(m, s, minutes, seconds);
    m + ":" + s
  }

  /** The digits on either side of the colon of `m:ss` read back as the two parts. */
  lemma ColonSplit(m: string, s: string, minutes: nat, seconds: nat)
    requires |m| >= 1 && AllDigits(m) && DecimalValue(m) == minutes
    requires |s| == 2 && AllDigits(s) && DecimalValue(s) == seconds
    ensures ReadsAsClock(m + ":" + s, minutes, seconds)
  {
    var r := m + ":" + s;
    assert r[..|r| - 3] == m;
    assert r[|r| - 2..] == s;
  }

  // ---------------------------------------------------------------------
  // Completion

  /** The built-in sample lesson: 15 minutes, 15 XP. */
  const SampleDuration: int := 15
  const SampleReward: int := 15

  /** `Math.floor((xp + reward) / 100) + 1 > Math.floor(xp / 100) + 1`. */
  predicate LeveledUp(xp: int, reward: int) {
    Level(xp + reward) > Level(xp)
  }

  /** A non-negative reward levels up exactly when it fills the rest of the current hundred. */
  lemma LevelUpIff(xp: int, reward: int)
    requires reward >= 0
    ensures LeveledUp(xp, reward) <==> xp % 100 + reward >= 100
  {
    assert xp + reward == (xp / 100) * 100 + (xp % 100 + reward);
  }

  /** `timeSpent < duration * 30`: seconds under half of the lesson's minutes. */
  predicate SpeedLearner(timeSpent: int, durationMinutes: int) {
    timeSpent < durationMinutes * 30
  }

  /** The speed threshold is half the planned duration in seconds. */
  lemma SpeedLearnerIsHalfTime(timeSpent: int, durationMinutes: int)
    ensures SpeedLearner(timeSpent, durationMinutes) <==> 2 * timeSpent < durationMinutes * 60
  {
  }

  /** What `handleCompletion` reports. */
  datatype Completion = Completion(
    xpEarned: int,          // passed to `earnXP` and recorded as `course_completed`
    seconds: int,           // `timeSpent` in the recorded activity
    minutes: real,          // `timeSpent / 60` passed to engagement tracking
    levelUp: Option<int>,   // the new level, when the reward crosses a hundred
    speedLearner: bool)

  /**
   * `handleCompletion` for a lesson of `durationMinutes` and `reward` XP,
   * with the user's total XP (`user?.progress?.totalXP || 0`) and the
   * elapsed seconds it reads.
   */
  function HandleCompletion(totalXP: Option<int>, reward: int, durationMinutes: int, timeSpent: int): (c: Completion)
    ensures c.xpEarned == reward && c.seconds == timeSpent
    ensures c.minutes * 60.0 == timeSpent as real
    ensures c.levelUp.Some? <==> LeveledUp(OrZero(totalXP), reward)
    ensures c.levelUp.Some? ==> c.levelUp.value == Level(OrZero(totalXP) + reward) > Level(OrZero(totalXP))
    ensures c.speedLearner <==> 2 * timeSpent < durationMinutes * 60
  {
    var xp := OrZero(totalXP);
    Completion(reward, timeSpent, timeSpent as real / 60.0,
               if LeveledUp(xp, reward) then Some(Level(xp + reward)) else None,
               SpeedLearner(timeSpent, durationMinutes))
  }

  // ---------------------------------------------------------------------
  // The play/pause interval

  /**
   * The viewer's state variables, and `seen`: the elapsed time the running
   * interval's callback sees. The interval is set up again only when
   * playing or completion changes, so its callback keeps the `timeSpent`
   * of that moment.
   */
  datatype ViewerState = ViewerState(progress: real, timeSpent: nat, isPlaying: bool, isCompleted: bool, seen: nat)

  const Start: ViewerState := ViewerState(0.0, 0, false, false, 0)

  /** Progress per second: 100 percent over the lesson's seconds. */
  const Step: real := 100.0 / 900.0

  /** Seconds of play that fill the progress bar. */
  const FullTime: nat := 900

  function Min(a: real, b: real): (m: real)
    ensures m <= a && m <= b && (m == a || m == b)
  {
    if a <= b then a else b
  }

  /**
   * The states the viewer's handlers reach: progress within 0..100, and
   * before completion the progress is exactly the seconds played at one
   * `Step` each, short of the full time.
   */
  predicate ViewerOk(s: ViewerState) {
    && 0.0 <= s.progress <= 100.0
    && (!s.isCompleted ==> s.progress == s.timeSpent as real * Step && s.timeSpent < FullTime)
  }

  /** `handlePlayPause`: toggle playing; the interval is set up again and sees the current time. */
  function PlayPause(s: ViewerState): (r: ViewerState)
    ensures r.isPlaying == !s.isPlaying && r.seen == s.timeSpent
    ensures r.progress == s.progress && r.timeSpent == s.timeSpent && r.isCompleted == s.isCompleted
  {
    s.(isPlaying := !s.isPlaying, seen := s.timeSpent)
  }

  /**
   * One second of the interval as written: time and progress advance;
   * when progress reaches 100 the lesson completes and `handleCompletion`
   * reads the elapsed time its callback saw when the interval was set up.
   */
  function TickAsWritten(s: ViewerState, totalXP: Option<int>): (r: (ViewerState, Option<Completion>))
    ensures r.1.Some? ==> r.1.value == HandleCompletion(totalXP, SampleReward, SampleDuration, s.seen)
  {
    if s.isPlaying && !s.isCompleted then
      var t := s.timeSpent + 1;
      var p := Min(s.progress + Step, 100.0);
      if p >= 100.0 then
        (ViewerState(p, t, false, true, t), Some(HandleCompletion(totalXP, SampleReward, SampleDuration, s.seen)))
      else (s.(timeSpent := t, progress := p), None)
    else (s, None)
  }

  /** One second of the interval, with `handleCompletion` reading the elapsed time at completion. */
  function Tick(s: ViewerState, totalXP: Option<int>): (r: (ViewerState, Option<Completion>))
    ensures !s.isPlaying || s.isCompleted ==> r == (s, None)
    ensures s.isPlaying && !s.isCompleted ==> r.0.timeSpent == s.timeSpent + 1 && r.0.progress <= 100.0
    ensures r.1.Some? <==> s.isPlaying && !s.isCompleted && s.progress + Step >= 100.0
    ensures r.1.Some? ==>
      && r.0.isCompleted && !r.0.isPlaying && r.0.progress == 100.0
      && r.1.value == HandleCompletion(totalXP, SampleReward, SampleDuration, r.0.timeSpent)
  {
    if s.isPlaying && !s.isCompleted then
      var t := s.timeSpent + 1;
      var p := Min(s.progress + Step, 100.0);
      if p >= 100.0 then
        (ViewerState(p, t, false, true, t), Some(HandleCompletion(totalXP, SampleReward, SampleDuration, t)))
      else (s.(timeSpent := t, progress := p), None)
    else (s, None)
  }

  /**
   * `handleMarkComplete`, offered while the lesson is not completed:
   * progress jumps to 100 and the completion is reported with the current
   * elapsed time.
   */
  function MarkComplete(s: ViewerState, totalXP: Option<int>): (r: (ViewerState, Option<Completion>))
    ensures s.isCompleted ==> r == (s, None)
    ensures !s.isCompleted ==>
      && r.0.isCompleted && r.0.progress == 100.0 && r.0.timeSpent == s.timeSpent
      && r.1 == Some(HandleCompletion(totalXP, SampleReward, SampleDuration, s.timeSpent))
  {
    if s.isCompleted then (s, None)
    else (s.(progress := 100.0, isCompleted := true, seen := s.timeSpent),
          Some(HandleCompletion(totalXP, SampleReward, SampleDuration, s.timeSpent)))
  }

  /**
   * Every step keeps the viewer's states reachable; the interval completes
   * the lesson exactly on the 900th second played, and then no speed
   * achievement is earned since 900 seconds is the full lesson.
   */
  lemma TickKeepsViewerOk(s: ViewerState, totalXP: Option<int>)
    requires ViewerOk(s)
    ensures ViewerOk(Tick(s, totalXP).0) && ViewerOk(PlayPause(s)) && ViewerOk(MarkComplete(s, totalXP).0)
    ensures Tick(s, totalXP).1.Some? <==> s.isPlaying && !s.isCompleted && s.timeSpent + 1 == FullTime
    ensures Tick(s, totalXP).1.Some? ==> !Tick(s, totalXP).1.value.speedLearner
  {
    if s.isPlaying && !s.isCompleted {
      assert s.progress + Step == (s.timeSpent + 1) as real * Step;
    }
  }

  /**
   * The two intervals reach the same state and complete on the same second;
   * they differ only in the elapsed time handed to `handleCompletion`.
   */
  lemma TicksAgree(s: ViewerState, totalXP: Option<int>)
    ensures TickAsWritten(s, totalXP).0 == Tick(s, totalXP).0
    ensures TickAsWritten(s, totalXP).1.Some? <==> Tick(s, totalXP).1.Some?
  {
  }

  /** A lesson completes once: after a completion neither the interval nor the button reports again. */
  lemma CompletionReportedOnce(s: ViewerState, totalXP: Option<int>, xp2: Option<int>)
    ensures Tick(s, totalXP).1.Some? ==>
      Tick(Tick(s, totalXP).0, xp2).1.None? && MarkComplete(Tick(s, totalXP).0, xp2).1.None?
    ensures MarkComplete(s, totalXP).1.Some? ==>
      Tick(MarkComplete(s, totalXP).0, xp2).1.None? && MarkComplete(MarkComplete(s, totalXP).0, xp2).1.None?
  {
  }

  /** `n` seconds of the interval as written. */
  function TicksAsWritten(s: ViewerState, n: nat, totalXP: Option<int>): ViewerState {
    if n == 0 then s else TickAsWritten(TicksAsWritten(s, n - 1, totalXP), totalXP).0
  }

  /** `n` seconds of the interval. */
  function Ticks(s: ViewerState, n: nat, totalXP: Option<int>): ViewerState {
    if n == 0 then s else Tick(Ticks(s, n - 1, totalXP), totalXP).0
  }

  /** Pressing play on a fresh viewer and leaving it: after `n` seconds short of the full time, the state. */
  lemma {:induction false} PlayedFor(n: nat, totalXP: Option<int>)
    requires n < FullTime
    ensures TicksAsWritten(PlayPause(Start), n, totalXP) == ViewerState(n as real * Step, n, true, false, 0)
    ensures Ticks(PlayPause(Start), n, totalXP) == ViewerState(n as real * Step, n, true, false, 0)
  {
    if n > 0 {
      PlayedFor(n - 1, totalXP);
      assert (n - 1) as real * Step + Step == n as real * Step;
    }
  }

  /**
   * As written, a lesson played straight through from the start is
   * reported as completed in 0 seconds: the Speed Learner achievement
   * fires and 0 minutes of engagement are tracked.
   */
  lemma AsWrittenStraightPlayIsSpeedy(totalXP: Option<int>)
    ensures var last := TicksAsWritten(PlayPause(Start), FullTime - 1, totalXP);
      var c := TickAsWritten(last, totalXP).1;
      c.Some? && c.value.speedLearner && c.value.seconds == 0 && c.value.minutes == 0.0
  {
    PlayedFor(FullTime - 1, totalXP);
  }

  /** Played straight through, the lesson is reported after its 900 seconds, 15 minutes, and is not speedy. */
  lemma StraightPlayTakesFullTime(totalXP: Option<int>)
    ensures var last := Ticks(PlayPause(Start), FullTime - 1, totalXP);
      var c := Tick(last, totalXP).1;
      c.Some? && !c.value.speedLearner && c.value.seconds == FullTime && c.value.minutes == 15.0
  {
    PlayedFor(FullTime - 1, totalXP);
  }

  /** The component's state variables; its handlers are the functions above. */
  class ViewerComponent {
    var progress: real
    var timeSpent: nat
    var isPlaying: bool
    var isCompleted: bool
    var seen: nat

    function Snapshot(): ViewerState
      reads this
    {
      ViewerState(progress, timeSpent, isPlaying, isCompleted, seen)
    }

    constructor ()
      ensures Snapshot() == Start && ViewerOk(Snapshot())
    {
      progress, timeSpent, isPlaying, isCompleted, seen := 0.0, 0, false, false, 0;
    }

    method HandlePlayPause()
      requires ViewerOk(Snapshot())
      modifies this
      ensures Snapshot() == PlayPause(old(Snapshot())) && ViewerOk(Snapshot())
    {
      TickKeepsViewerOk(Snapshot(), None);
      isPlaying := !isPlaying;
      seen := timeSpent;
    }

    /**
     * One run of the interval callback as written: the completion is
     * reported with the elapsed time the callback saw when it was set up.
     */
    method IntervalTick(totalXP: Option<int>) returns (completion: Option<Completion>)
      requires ViewerOk(Snapshot())
      modifies this
      ensures (Snapshot(), completion) == TickAsWritten(old(Snapshot()), totalXP)
      ensures ViewerOk(Snapshot())
    {
      TickKeepsViewerOk(Snapshot(), totalXP);
      TicksAgree(Snapshot(), totalXP);
      completion := None;
      if isPlaying && !isCompleted {
        var elapsed := seen;
        timeSpent := timeSpent + 1;
        progress := Min(progress + Step, 100.0);
        if progress >= 100.0 {
          isCompleted := true;
          isPlaying := false;
          seen := timeSpent;
          completion := Some(HandleCompletion(totalXP, SampleReward, SampleDuration, elapsed));
        }
      }
    }

    method HandleMarkComplete(totalXP: Option<int>) returns (completion: Option<Completion>)
      requires ViewerOk(Snapshot())
      modifies this
      ensures (Snapshot(), completion) == MarkComplete(old(Snapshot()), totalXP)
      ensures ViewerOk(Snapshot())
    {
      TickKeepsViewerOk(Snapshot(), totalXP);
      completion := None;
      if !isCompleted {
        progress := 100.0;
        isCompleted := true;
        seen := timeSpent;
        completion := Some(HandleCompletion(totalXP, SampleReward, SampleDuration, timeSpent));
      }
    }
  }
}
