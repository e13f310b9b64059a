/**
 * Shared vocabulary of the progress and gamification model: optional values,
 * JavaScript-style arithmetic (floor division, truncating remainder,
 * Math.round), decimal rendering, counting and summing over sequences,
 * duplicate removal that keeps first occurrences (what `new Set([...])`
 * does), a descending insertion sort (standing for `Array.prototype.sort`
 * with a `b - a` comparator), string trimming and the XP level formula.
 */
module Common {

  datatype Option<T> = None | Some(value: T) {
    function GetOr(default: T): T {
      match this
      case Some(v) => v
      case None => default
    }
  }

  /** Milliseconds since the epoch, as `Date.now()` reports them. */
  type Time = int

  const MillisPerMinute: int := 60000
  const MillisPerHour: int := 3600000
  const MillisPerDay: int := 86400000

  /** A JavaScript string is "truthy" when it is present and not empty. */
  predicate Truthy(s: Option<string>) {
    s.Some? && s.value != ""
  }

  /** `x || d` on a number: the default replaces a missing value and a zero. */
  function OrDefault(x: Option<int>, d: int): (r: int)
    ensures r == d || (x.Some? && r == x.value)
    ensures x.Some? && x.value != 0 ==> r == x.value
    ensures x.None? || x.value == 0 ==> r == d
  {
    if x.Some? && x.value != 0 then x.value else d
  }

  /** `x || 0` on a number read from a request or from storage. */
  function OrZero(x: Option<int>): int {
    OrDefault(x, 0)
  }

  /** `s || d` on a string: the default replaces a missing value and the empty string. */
  function OrText(s: Option<string>, d: string): (r: string)
    ensures Truthy(s) ==> r == s.value
    ensures !Truthy(s) ==> r == d
  {
    if Truthy(s) then s.value else d
  }

  // ---------------------------------------------------------------------
  // Arithmetic as JavaScript does it

  /** `a % b` in JavaScript: the remainder takes the sign of the dividend. */
  function JsRem(a: int, b: int): (r: int)
    requires b > 0
    ensures a >= 0 ==> 0 <= r < b
    ensures a < 0 ==> -b < r <= 0
    ensures a >= 0 ==> r == a % b
    ensures (a - r) % b == 0
  {
    if a >= 0 then
      MultipleRem(b, a / b);
      assert a - a % b == b * (a / b);
      a % b
    else
      var m := -a;
      MultipleRem(b, -(m / b));
      assert m == b * (m / b) + m % b;
      assert a + m % b == b * -(m / b);
      -(m % b)
  }

  /** A multiple of `b` leaves no remainder, whatever its sign. */
  lemma MultipleRem(b: int, q: int)
    requires b > 0
    ensures (b * q) % b == 0
  {
    var x := b * q;
    var t := q - x / b;
    assert x == b * (x / b) + x % b;
    assert x % b == b * t;
  }

  /** `Math.round(x)`: the nearest integer, halves rounded up. */
  function RoundHalfUp(x: real): (r: int)
    ensures x - 0.5 < r as real <= x + 0.5
  {
    (x + 0.5).Floor
  }

  // Division by a positive real, one step at a time

  lemma DivideDifference(a: real, b: real, t: real)
    requires t > 0.0
    ensures a / t - b / t == (a - b) / t
  {
  }

  lemma DivideMultiple(c: real, t: real)
    requires t > 0.0
    ensures t * c / t == c
  {
  }

  lemma DivideNonNegative(a: real, t: real)
    requires a >= 0.0 && t > 0.0
    ensures a / t >= 0.0
  {
  }

  /** Level shown for an XP total: `Math.floor(xp / 100) + 1`. */
  function Level(xp: int): (l: int)
    ensures xp >= 0 ==> l >= 1
    ensures (l - 1) * 100 <= xp < l * 100
  {
    xp / 100 + 1
  }

  // ---------------------------------------------------------------------
  // Decimal rendering, as `String(n)` does for a non-negative integer

  predicate IsDigit(c: char) {
    '0' <= c <= '9'
  }

  predicate AllDigits(s: string) {
    forall i :: 0 <= i < |s| ==> IsDigit(s[i])
  }

  function DigitChar(d: nat): (c: char)
    requires d < 10
    ensures IsDigit(c)
  {
    ('0' as int + d) as char
  }

  function DigitValue(c: char): (d: nat)
    requires IsDigit(c)
    ensures d < 10
  {
    c as int - '0' as int
  }

  /** The value a string of decimal digits denotes. */
  function DecimalValue(s: string): nat
    requires AllDigits(s)
  {
    if s == [] then 0 else DecimalValue(s[..|s| - 1]) * 10 + DigitValue(s[|s| - 1])
  }

  /** `String(n)`: digits only, never empty, no leading zero. */
  function Decimal(n: nat): (s: string)
    ensures |s| >= 1 && AllDigits(s)
    ensures |s| > 1 ==> s[0] != '0'
    ensures n < 10 <==> |s| == 1
  {
    if n < 10 then [DigitChar(n)] else Decimal(n / 10) + [DigitChar(n % 10)]
  }

  /** Decimal rendering loses nothing: reading the digits back gives `n`. */
  lemma {:induction false} DecimalRoundTrip(n: nat)
    ensures DecimalValue(Decimal(n)) == n
  {
    if n >= 10 {
      DecimalRoundTrip(n / 10);
      var s := Decimal(n);
      assert s[..|s| - 1] == Decimal(n / 10);
    }
  }

  // ---------------------------------------------------------------------
  // Counting, summing and de-duplicating

  /** Number of occurrences of `x` in `s`. */
  function Occurrences<T(==)>(s: seq<T>, x: T): (n: nat)
    ensures n <= |s|
    ensures x !in s <==> n == 0
  {
    if s == [] then 0 else Occurrences(s[..|s| - 1], x) + (if s[|s| - 1] == x then 1 else 0)
  }

  /** `xs` is `ys` with some elements left out, order kept. */
  predicate SubsequenceOf<T(==)>(xs: seq<T>, ys: seq<T>)
    decreases |ys|
  {
    if xs == [] then true
    else if ys == [] then false
    else if xs[|xs| - 1] == ys[|ys| - 1] then SubsequenceOf(xs[..|xs| - 1], ys[..|ys| - 1])
    else SubsequenceOf(xs, ys[..|ys| - 1])
  }

  lemma {:induction false} SubsequenceExtend<T>(xs: seq<T>, ys: seq<T>, y: T)
    requires SubsequenceOf(xs, ys)
    ensures SubsequenceOf(xs, ys + [y])
    decreases |ys|, 1
  {
    var zs := ys + [y];
    assert zs[..|zs| - 1] == ys;
    if xs != [] && xs[|xs| - 1] == y {
      SubsequenceDropLast(xs, ys);
    }
  }

  lemma {:induction false} SubsequenceDropLast<T>(xs: seq<T>, ys: seq<T>)
    requires xs != [] && SubsequenceOf(xs, ys)
    ensures SubsequenceOf(xs[..|xs| - 1], ys)
    decreases |ys|, 0
  {
    var ys' := ys[..|ys| - 1];
    assert ys' + [ys[|ys| - 1]] == ys;
    if xs[|xs| - 1] == ys[|ys| - 1] {
      SubsequenceExtend(xs[..|xs| - 1], ys', ys[|ys| - 1]);
    } else {
      SubsequenceDropLast(xs, ys');
      SubsequenceExtend(xs[..|xs| - 1], ys', ys[|ys| - 1]);
    }
  }

  /**
   * `s.filter(p)`: the elements satisfying `p`, each as often as in `s`, in
   * their order in `s`.
   */
  function Filter<T(==, !new)>(s: seq<T>, p: T -> bool): (r: seq<T>)
    ensures |r| <= |s|
    ensures forall i :: 0 <= i < |r| ==> p(r[i])
    ensures forall x {:trigger multiset(r)[x]} :: p(x) ==> multiset(r)[x] == multiset(s)[x]
    ensures multiset(r) <= multiset(s)
    ensures SubsequenceOf(r, s)
  {
    if s == [] then []
    else
      var init, last := s[..|s| - 1], s[|s| - 1];
      assert s == init + [last];
      var r := Filter(init, p);
      if p(last) then
        assert (r + [last])[..|r|] == r;
        r + [last]
      else
        SubsequenceExtend(r, init, last);
        r
  }

  predicate NoDuplicates<T(==)>(s: seq<T>) {
    forall i, j :: 0 <= i < j < |s| ==> s[i] != s[j]
  }

  /**
   * `[...new Set(s)]`: every distinct element once, in the order of its
   * first occurrence.
   */
  function Dedup<T(==)>(s: seq<T>): (r: seq<T>)
    ensures NoDuplicates(r)
    ensures forall i :: 0 <= i < |s| ==> s[i] in r
    ensures forall i :: 0 <= i < |r| ==> r[i] in s
    ensures |r| <= |s|
  {
    if s == [] then []
    else
      var init := Dedup(s[..|s| - 1]);
      if s[|s| - 1] in init then init else init + [s[|s| - 1]]
  }

  /** The index where `x` first occurs in `s`. */
  function FirstIndex<T(==)>(s: seq<T>, x: T): (k: nat)
    requires x in s
    ensures k < |s| && s[k] == x
    ensures forall j :: 0 <= j < k ==> s[j] != x
  {
    if s[0] == x then 0 else 1 + FirstIndex(s[1..], x)
  }

  /** A Set lists its elements in the order in which each first occurs in the input. */
  lemma {:induction false} DedupFirstOccurrenceOrder<T>(s: seq<T>)
    ensures forall i, j :: 0 <= i < j < |Dedup(s)| ==> FirstIndex(s, Dedup(s)[i]) < FirstIndex(s, Dedup(s)[j])
  {
    if s != [] {
      var init, last := s[..|s| - 1], s[|s| - 1];
      var r0 := Dedup(init);
      DedupFirstOccurrenceOrder(init);
      forall x | x in init ensures FirstIndex(s, x) == FirstIndex(init, x) {
        var k, k0 := FirstIndex(s, x), FirstIndex(init, x);
        assert s[k0] == x;
      }
      var r := Dedup(s);
      forall i, j | 0 <= i < j < |r| ensures FirstIndex(s, r[i]) < FirstIndex(s, r[j]) {
        assert r[i] == r0[i] && r[i] in init;
        if j < |r0| {
          assert r[j] == r0[j] && r[j] in init;
        } else {
          assert r[j] == last && last !in init;
          assert FirstIndex(s, last) == |s| - 1;
        }
      }
    }
  }

  /** Adding to a duplicate-free sequence through a Set keeps it and appends once. */
  lemma DedupOfDistinctAppend<T>(s: seq<T>, x: T)
    requires NoDuplicates(s)
    ensures Dedup(s + [x]) == if x in s then s else s + [x]
  {
    assert (s + [x])[..|s|] == s;
    DedupOfDistinct(s);
  }

  lemma {:induction false} DedupOfDistinct<T>(s: seq<T>)
    requires NoDuplicates(s)
    ensures Dedup(s) == s
  {
    if s != [] {
      var init := s[..|s| - 1];
      DedupOfDistinct(init);
      assert s[|s| - 1] !in init by {
        forall i | 0 <= i < |init| ensures init[i] != s[|s| - 1] {
          assert s[i] != s[|s| - 1];
        }
      }
      assert init + [s[|s| - 1]] == s;
    }
  }

  /**
   * `s.slice(-n)` for n > 0: the last `n` elements, or all of them when
   * there are fewer.
   */
  function LastN<T>(s: seq<T>, n: nat): (r: seq<T>)
    requires n > 0
    ensures |r| == if |s| <= n then |s| else n
    ensures r == s[|s| - |r|..]
  {
    if |s| <= n then s else s[|s| - n..]
  }

  // ---------------------------------------------------------------------
  // Stable sort by a key, largest first (`sort((a, b) => key(b) - key(a))`)

  predicate SortedDesc<T>(s: seq<T>, key: T -> int) {
    forall i, j :: 0 <= i < j < |s| ==> key(s[i]) >= key(s[j])
  }

  /** Inserts `x` in front of the first element whose key is not larger. */
  function InsertDesc<T>(x: T, s: seq<T>, key: T -> int): (r: seq<T>)
    requires SortedDesc(s, key)
    ensures SortedDesc(r, key)
    ensures multiset(r) == multiset(s) + multiset{x}
    ensures |r| == |s| + 1
    ensures forall k :: 0 <= k < |r| ==> key(r[k]) <= key(x) || (s != [] && key(r[k]) <= key(s[0]))
  {
    if s == [] || key(s[0]) <= key(x) then
      InsertInFront(x, s, key);
      [x] + s
    else
      var rest := InsertDesc(x, s[1..], key);
      InsertBehind(x, s, rest, key);
      [s[0]] + rest
  }

  /** Where the first key is not larger than `x`'s, `x` goes in front. */
  lemma InsertInFront<T>(x: T, s: seq<T>, key: T -> int)
    requires SortedDesc(s, key) && (s == [] || key(s[0]) <= key(x))
    ensures SortedDesc([x] + s, key)
    ensures multiset([x] + s) == multiset(s) + multiset{x}
    ensures forall k :: 0 <= k < |s| + 1 ==> key(([x] + s)[k]) <= key(x)
  {
    assert forall k :: 0 <= k < |s| ==> key(s[k]) <= key(x) by {
      forall k | 0 <= k < |s| ensures key(s[k]) <= key(x) {
        assert key(s[k]) <= key(s[0]);
      }
    }
  }

  /**
   * Where the first key is larger than `x`'s, the first element stays in
   * front of the insertion into the rest.
   */
  lemma InsertBehind<T>(x: T, s: seq<T>, rest: seq<T>, key: T -> int)
    requires SortedDesc(s, key) && s != [] && key(s[0]) > key(x)
    requires SortedDesc(rest, key) && multiset(rest) == multiset(s[1..]) + multiset{x}
    requires forall k :: 0 <= k < |rest| ==> key(rest[k]) <= key(x) || (s[1..] != [] && key(rest[k]) <= key(s[1..][0]))
    ensures SortedDesc([s[0]] + rest, key)
    ensures multiset([s[0]] + rest) == multiset(s) + multiset{x}
    ensures forall k :: 0 <= k < |rest| + 1 ==> key(([s[0]] + rest)[k]) <= key(s[0])
  {
    assert s == [s[0]] + s[1..];
    assert forall k :: 0 <= k < |rest| ==> key(rest[k]) <= key(s[0]) by {
      forall k | 0 <= k < |rest| ensures key(rest[k]) <= key(s[0]) {
        if s[1..] != [] {
          assert key(s[1..][0]) <= key(s[0]);
        }
      }
    }
    ConsSorted(s[0], rest, key);
  }

  /** Putting an element in front of a sorted sequence whose keys are all at most its own keeps it sorted. */
  lemma ConsSorted<T>(h: T, t: seq<T>, key: T -> int)
    requires SortedDesc(t, key)
    requires forall k :: 0 <= k < |t| ==> key(t[k]) <= key(h)
    ensures SortedDesc([h] + t, key)
    ensures forall k :: 0 <= k < |t| + 1 ==> key(([h] + t)[k]) <= key(h)
  {
  }

  /** Insertion sort: sorted by key descending, and a permutation of the input. */
  function SortDesc<T>(s: seq<T>, key: T -> int): (r: seq<T>)
    ensures SortedDesc(r, key)
    ensures multiset(r) == multiset(s)
    ensures |r| == |s|
  {
    if s == [] then []
    else
      assert s == [s[0]] + s[1..];
      InsertDesc(s[0], SortDesc(s[1..], key), key)
  }

  /** A sequence already in descending order is left as it is, ties included: the sort is stable. */
  lemma {:induction false} SortDescOfSorted<T>(s: seq<T>, key: T -> int)
    requires SortedDesc(s, key)
    ensures SortDesc(s, key) == s
  {
    if s != [] {
      var t := s[1..];
      forall i, j | 0 <= i < j < |t| ensures key(t[i]) >= key(t[j]) {
        assert t[i] == s[i + 1] && t[j] == s[j + 1];
      }
      SortDescOfSorted(t, key);
      assert s[1..] == [] || key(s[1..][0]) <= key(s[0]);
      assert [s[0]] + s[1..] == s;
    }
  }

  // ---------------------------------------------------------------------
  // String.prototype.trim

  /** The characters `trim()` removes: white space and line terminators. */
  const JsSpaces: set<char> := {
    '\U{0009}', '\U{000A}', '\U{000B}', '\U{000C}', '\U{000D}', '\U{0020}', '\U{00A0}', '\U{1680}',
    '\U{2000}', '\U{2001}', '\U{2002}', '\U{2003}', '\U{2004}', '\U{2005}', '\U{2006}', '\U{2007}',
    '\U{2008}', '\U{2009}', '\U{200A}', '\U{2028}', '\U{2029}', '\U{202F}', '\U{205F}', '\U{3000}', '\U{FEFF}'
  }

  predicate IsJsSpace(c: char) {
    c in JsSpaces
  }

  /** How many white-space characters `s` has from index `i` on, before its first non-space. */
  function SpacesFrom(s: string, i: nat): (n: nat)
    requires i <= |s|
    ensures i + n <= |s|
    ensures forall k :: i <= k < i + n ==> IsJsSpace(s[k])
    ensures i + n < |s| ==> !IsJsSpace(s[i + n])
    decreases |s| - i
  {
    if i < |s| && IsJsSpace(s[i]) then 1 + SpacesFrom(s, i + 1) else 0
  }

  /** How many white-space characters end `s[a..e]`. */
  function SpacesBefore(s: string, a: nat, e: nat): (n: nat)
    requires a <= e <= |s|
    ensures a + n <= e
    ensures forall k :: e - n <= k < e ==> IsJsSpace(s[k])
    ensures a + n < e ==> !IsJsSpace(s[e - 1 - n])
  {
    if a < e && IsJsSpace(s[e - 1]) then 1 + SpacesBefore(s, a, e - 1) else 0
  }

  /**
   * `s.trim()`: the slice of `s` left once the white space at both ends is
   * removed; what remains starts and ends with a non-space.
   */
  function Trim(s: string): (r: string)
    ensures var a := SpacesFrom(s, 0);
      && a + |r| <= |s| && r == s[a..a + |r|]
      && (forall i :: 0 <= i < a ==> IsJsSpace(s[i]))
      && (forall i :: a + |r| <= i < |s| ==> IsJsSpace(s[i]))
    ensures r == [] || (!IsJsSpace(r[0]) && !IsJsSpace(r[|r| - 1]))
  {
    var a := SpacesFrom(s, 0);
    s[a..|s| - SpacesBefore(s, a, |s|)]
  }

  /** A string is blank when `s.trim()` is empty. */
  predicate Blank(s: string) {
    Trim(s) == []
  }
}
