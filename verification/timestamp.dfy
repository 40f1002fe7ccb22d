/**
 * `time_stamp`: a clock reading formatted with strftime('%Y%m%d-%H%M%S').
 * The clock read itself is a parameter.
 */
module TimeFormat {
  import opened Wrappers

  /** The broken-down fields of a clock reading. */
  datatype Clock = Clock(year: nat, month: nat, day: nat, hour: nat, minute: nat, second: nat)

  /** The ranges a Ruby `Time` keeps its fields in (second 60 is a leap second). */
  predicate ValidClock(c: Clock) {
    && 1 <= c.month <= 12
    && 1 <= c.day <= 31
    && c.hour < 24
    && c.minute < 60
    && c.second <= 60
  }

  predicate IsDigit(ch: char) {
    '0' <= ch <= '9'
  }

  predicate AllDigits(s: string) {
    forall i :: 0 <= i < |s| ==> IsDigit(s[i])
  }

  function DigitChar(d: nat): (ch: char)
    requires d < 10
    ensures IsDigit(ch)
  {
    ('0' as int + d) as char
  }

  function DigitValue(ch: char): (d: nat)
    requires IsDigit(ch)
    ensures d < 10 && DigitChar(d) == ch
  {
    ch as int - '0' as int
  }

  function Pow10(n: nat): (p: nat)
    ensures p >= 1
  {
    if n == 0 then 1 else 10 * Pow10(n - 1)
  }

  /** The last `w` decimal digits of `n`, zero-padded on the left. */
  function Fixed(n: nat, w: nat): (r: string)
    ensures |r| == w && AllDigits(r)
  {
    if w == 0 then "" else Fixed(n / 10, w - 1) + [DigitChar(n % 10)]
  }

  /** The number a string of decimal digits denotes. */
  function Value(s: string): (n: nat)
    requires AllDigits(s)
    ensures n < Pow10(|s|)
  {
    if s == [] then 0 else Value(s[..|s| - 1]) * 10 + DigitValue(s[|s| - 1])
  }

  /** How many decimal digits `n` has when written without padding. */
  function NumDigits(n: nat): (k: nat)
    ensures 1 <= k && n < Pow10(k)
    ensures k > 1 ==> Pow10(k - 1) <= n
  {
    if n < 10 then 1 else 1 + NumDigits(n / 10)
  }

  /** `%Y` pads the year to at least four digits and prints longer years in full. */
  function YearWidth(year: nat): (w: nat)
    ensures 4 <= w && year < Pow10(w)
    ensures w == 4 <==> year < 10000
    ensures w > 4 ==> Pow10(w - 1) <= year
    ensures year >= 10000 ==> w == NumDigits(year)
  {
    if year < 10000 then 4 else NumDigits(year)
  }

  function TimeStamp(c: Clock): (r: string)
    requires ValidClock(c)
    ensures |r| == YearWidth(c.year) + 11
    ensures c.year < 10000 <==> |r| == 15
    ensures r[|r| - 7] == '-'
    ensures AllDigits(r[..|r| - 7]) && AllDigits(r[|r| - 6..])
  {
    Fixed(c.year, YearWidth(c.year)) + Fixed(c.month, 2) + Fixed(c.day, 2)
      + "-" + Fixed(c.hour, 2) + Fixed(c.minute, 2) + Fixed(c.second, 2)
  }

  /** Any slice of a digit string is a digit string. */
  lemma SliceDigits(s: string, i: nat, j: nat)
    requires AllDigits(s) && i <= j <= |s|
    ensures AllDigits(s[i..j])
  {
  }

  /** Split a digit string of at least four digits into a leading field and two 2-digit fields. */
  function Triple(t: string): (r: (nat, nat, nat))
    requires AllDigits(t) && |t| >= 4
  {
    var n := |t|;
    SliceDigits(t, 0, n - 4);
    SliceDigits(t, n - 4, n - 2);
    SliceDigits(t, n - 2, n);
    (Value(t[..n - 4]), Value(t[n - 4..n - 2]), Value(t[n - 2..]))
  }

  /** Read the fields back out of a string of the `time_stamp` shape; None for any other string. */
  function ParseTimeStamp(s: string): Option<Clock> {
    var n := |s|;
    if n < 15 || s[n - 7] != '-' || !AllDigits(s[..n - 7]) || !AllDigits(s[n - 6..]) then None
    else
      var (y, mo, d) := Triple(s[..n - 7]);
      var (h, mi, se) := Triple(s[n - 6..]);
      Some(Clock(y, mo, d, h, mi, se))
  }

  /** The three parts of a concatenation are its slices. */
  lemma SplitThree(a: string, b: string, c: string)
    ensures (a + b + c)[..|a|] == a
    ensures (a + b + c)[|a|..|a| + |b|] == b
    ensures (a + b + c)[|a| + |b|..] == c
  {
  }

  /** A field of at least four digits followed by two 2-digit fields reads back as those numbers. */
  lemma TripleOfFixed(x: nat, w: nat, y: nat, z: nat)
    requires x < Pow10(w) && y < 100 && z < 100
    ensures Triple(Fixed(x, w) + Fixed(y, 2) + Fixed(z, 2)) == (x, y, z)
  {
    var a, b, c := Fixed(x, w), Fixed(y, 2), Fixed(z, 2);
    SplitThree(a, b, c);
    ValueOfFixed(x, w);
    ValueOfFixed(y, 2);
    ValueOfFixed(z, 2);
  }

  /** A zero-padded field reads back as the number it was made from. */
  lemma {:induction false} ValueOfFixed(n: nat, w: nat)
    requires n < Pow10(w)
    ensures Value(Fixed(n, w)) == n
  {
    if w > 0 {
      var r := Fixed(n, w);
      assert r[..w - 1] == Fixed(n / 10, w - 1);
      assert n / 10 < Pow10(w - 1);
      ValueOfFixed(n / 10, w - 1);
    }
  }

  /** Every valid clock reading is recovered from its time stamp. */
  lemma TimeStampRoundTrip(c: Clock)
    requires ValidClock(c)
    ensures ParseTimeStamp(TimeStamp(c)) == Some(c)
  {
    var w := YearWidth(c.year);
    var date := Fixed(c.year, w) + Fixed(c.month, 2) + Fixed(c.day, 2);
    var time := Fixed(c.hour, 2) + Fixed(c.minute, 2) + Fixed(c.second, 2);
    var s := TimeStamp(c);
    var n := |s|;
    assert s == date + "-" + time;
    SplitThree(date, "-", time);
    assert s[..n - 7] == date && s[n - 7] == '-' && s[n - 6..] == time;
    TripleOfFixed(c.year, w, c.month, c.day);
    TripleOfFixed(c.hour, 2, c.minute, c.second);
  }

  /** Strict lexicographic order by character code, as Ruby's `String#<` compares these strings. */
  predicate LexLess(a: string, b: string)
    decreases |a|
  {
    if a == [] then b != []
    else b != [] && (a[0] < b[0] || (a[0] == b[0] && LexLess(a[1..], b[1..])))
  }

  /** Chronological order of two clock readings: field by field, most significant first. */
  predicate Before(a: Clock, b: Clock) {
    || a.year < b.year
    || (a.year == b.year && a.month < b.month)
    || (a.year == b.year && a.month == b.month && a.day < b.day)
    || (a.year == b.year && a.month == b.month && a.day == b.day && a.hour < b.hour)
    || (a.year == b.year && a.month == b.month && a.day == b.day && a.hour == b.hour && a.minute < b.minute)
    || (a.year == b.year && a.month == b.month && a.day == b.day && a.hour == b.hour && a.minute == b.minute
        && a.second < b.second)
  }

  /** Behind equally long prefixes, the order is decided by the prefixes unless they are equal. */
  lemma {:induction false} ConcatLess(p: string, q: string, x: string, y: string)
    requires |p| == |q|
    ensures LexLess(p + x, q + y) <==> LexLess(p, q) || (p == q && LexLess(x, y))
    ensures p + x == q + y <==> p == q && x == y
    decreases |p|
  {
    if p == [] {
      assert p + x == x && q + y == y;
    } else {
      ConcatLess(p[1..], q[1..], x, y);
      assert (p + x)[1..] == p[1..] + x && (q + y)[1..] == q[1..] + y;
      assert p == [p[0]] + p[1..] && q == [q[0]] + q[1..];
      if p + x == q + y {
        assert (p + x)[..|p|] == p && (q + y)[..|q|] == q;
      }
    }
  }

  /** Equal-width zero-padded fields compare as the numbers they show. */
  lemma {:induction false} FixedLess(a: nat, b: nat, w: nat)
    requires a < Pow10(w) && b < Pow10(w)
    ensures LexLess(Fixed(a, w), Fixed(b, w)) <==> a < b
    ensures Fixed(a, w) == Fixed(b, w) <==> a == b
  {
    if w == 0 {
      assert a == 0 && b == 0;
    } else {
      var da, db := DigitChar(a % 10), DigitChar(b % 10);
      assert a / 10 < Pow10(w - 1) && b / 10 < Pow10(w - 1);
      FixedLess(a / 10, b / 10, w - 1);
      ConcatLess(Fixed(a / 10, w - 1), Fixed(b / 10, w - 1), [da], [db]);
      assert LexLess([da], [db]) <==> a % 10 < b % 10 by {
        assert [da][1..] == [] && [db][1..] == [];
      }
      assert a == 10 * (a / 10) + a % 10 && b == 10 * (b / 10) + b % 10;
    }
  }

  /**
   * Time stamps with four-digit years sort as strings in the order of the clock
   * readings they were made from.
   */
  lemma TimeStampOrder(a: Clock, b: Clock)
    requires ValidClock(a) && ValidClock(b)
    requires a.year < 10000 && b.year < 10000
    ensures LexLess(TimeStamp(a), TimeStamp(b)) <==> Before(a, b)
  {
    var a1, b1 := Fixed(a.year, 4), Fixed(b.year, 4);
    var a2, b2 := a1 + Fixed(a.month, 2), b1 + Fixed(b.month, 2);
    var a3, b3 := a2 + Fixed(a.day, 2), b2 + Fixed(b.day, 2);
    var a4, b4 := a3 + "-", b3 + "-";
    var a5, b5 := a4 + Fixed(a.hour, 2), b4 + Fixed(b.hour, 2);
    var a6, b6 := a5 + Fixed(a.minute, 2), b5 + Fixed(b.minute, 2);
    assert TimeStamp(a) == a6 + Fixed(a.second, 2) && TimeStamp(b) == b6 + Fixed(b.second, 2);
    FixedLess(a.year, b.year, 4);
    FixedLess(a.month, b.month, 2);
    FixedLess(a.day, b.day, 2);
    FixedLess(a.hour, b.hour, 2);
    FixedLess(a.minute, b.minute, 2);
    FixedLess(a.second, b.second, 2);
    ConcatLess(a1, b1, Fixed(a.month, 2), Fixed(b.month, 2));
    ConcatLess(a2, b2, Fixed(a.day, 2), Fixed(b.day, 2));
    ConcatLess(a3, b3, "-", "-");
    assert !LexLess("-", "-");
    ConcatLess(a4, b4, Fixed(a.hour, 2), Fixed(b.hour, 2));
    ConcatLess(a5, b5, Fixed(a.minute, 2), Fixed(b.minute, 2));
    ConcatLess(a6, b6, Fixed(a.second, 2), Fixed(b.second, 2));
  }
}
