/** Shared vocabulary: optional values, sums over sequences and the wall clock. */
module Common {

  datatype Option<T> = None | Some(value: T)

  function MinReal(a: real, b: real): real { if a <= b then a else b }

  function MaxReal(a: real, b: real): real { if a >= b then a else b }

  /** Python's `int(x)` on a float: truncation toward zero. */
  function Trunc(x: real): int
  {
    if x >= 0.0 then x.Floor else -((-x).Floor)
  }

  /** Python's `a // b` on integers with a positive divisor: floor division. */
  function FloorDiv(a: int, b: int): int
    requires b > 0
  {
    a / b
  }

  /** Every entry is strictly positive, as a series of prices is. */
  predicate AllPositive(s: seq<real>)
  {
    forall i :: 0 <= i < |s| ==> s[i] > 0.0
  }

  /** The sum of a sequence of reals, adding from the left as Python's `sum` does. */
  function Sum(s: seq<real>): real
  {
    if s == [] then 0.0 else Sum(s[..|s| - 1]) + s[|s| - 1]
  }

  /** The arithmetic mean of a non-empty window. */
  function Mean(s: seq<real>): real
    requires |s| > 0
  {
    Sum(s) / (|s| as real)
  }

  function MaxOf(s: seq<real>): real
    requires |s| > 0
  {
    if |s| == 1 then s[0] else MaxReal(MaxOf(s[..|s| - 1]), s[|s| - 1])
  }

  function MinOf(s: seq<real>): real
    requires |s| > 0
  {
    if |s| == 1 then s[0] else MinReal(MinOf(s[..|s| - 1]), s[|s| - 1])
  }

  /** The whitespace Python's `strip` and `split` remove (the ASCII part of it). */
  predicate IsSpace(c: char)
  {
    c == ' ' || c == '\t' || c == '\n' || c == '\r'
  }

  /** An ASCII decimal digit. */
  predicate IsDigit(c: char)
  {
    '0' <= c <= '9'
  }

  function StripLeft(s: string): (t: string)
    ensures |t| <= |s| && (t != [] ==> !IsSpace(t[0]))
  {
    if s != [] && IsSpace(s[0]) then StripLeft(s[1..]) else s
  }

  function StripRight(s: string): (t: string)
    ensures |t| <= |s| && t == s[..|t|] && (t != [] ==> !IsSpace(t[|t| - 1]))
  {
    if s != [] && IsSpace(s[|s| - 1]) then StripRight(s[..|s| - 1]) else s
  }

  /** Python's `str.strip()`. */
  function Strip(s: string): (t: string)
    ensures |t| <= |s|
    ensures t != [] ==> !IsSpace(t[0]) && !IsSpace(t[|t| - 1])
  {
    StripRight(StripLeft(s))
  }

  /** Python's `s[-n:]`: the last n elements for n > 0 (all of them when n exceeds the length), the whole sequence for n = 0 (as `-0` is `0`), and all but the first -n elements for n < 0. */
  function Tail<T>(s: seq<T>, n: int): seq<T>
  {
    if n == 0 then s
    else if n > 0 then (if n >= |s| then s else s[|s| - n..])
    else (if -n >= |s| then [] else s[-n..])
  }

  /** Python's `s[:n]`: the first n elements (all of them when n exceeds the length), and all but the last -n elements for n < 0. */
  function Head<T>(s: seq<T>, n: int): (h: seq<T>)
    ensures |h| <= |s| && h == s[..|h|]
    ensures 0 <= n <= |s| ==> |h| == n
  {
    if n >= 0 then (if n >= |s| then s else s[..n])
    else (if -n >= |s| then [] else s[..|s| + n])
  }

  /** A non-empty sequence is its front followed by its last element. */
  lemma FrontAndLast<T>(s: seq<T>)
    requires s != []
    ensures s[..|s| - 1] + [s[|s| - 1]] == s
  {
  }

  lemma {:induction false} SumAppend(s: seq<real>, x: real)
    ensures Sum(s + [x]) == Sum(s) + x
  {
    assert (s + [x])[..|s + [x]| - 1] == s;
  }

  lemma {:induction false} SumOfConstant(s: seq<real>, c: real)
    requires forall i :: 0 <= i < |s| ==> s[i] == c
    ensures Sum(s) == (|s| as real) * c
  {
    if s != [] {
      SumOfConstant(s[..|s| - 1], c);
    }
  }

  lemma {:induction false} MeanOfConstant(s: seq<real>, c: real)
    requires |s| > 0
    requires forall i :: 0 <= i < |s| ==> s[i] == c
    ensures Mean(s) == c
  {
    SumOfConstant(s, c);
  }

  lemma {:induction false} SumWithin(s: seq<real>, lo: real, hi: real)
    requires forall i :: 0 <= i < |s| ==> lo <= s[i] <= hi
    ensures (|s| as real) * lo <= Sum(s) <= (|s| as real) * hi
  {
    if s != [] {
      var init := s[..|s| - 1];
      SumWithin(init, lo, hi);
      var n := |init| as real;
      assert (n + 1.0) * lo == n * lo + lo;
      assert (n + 1.0) * hi == n * hi + hi;
    }
  }

  lemma {:induction false} ExtremesBound(s: seq<real>)
    requires |s| > 0
    ensures forall i :: 0 <= i < |s| ==> MinOf(s) <= s[i] <= MaxOf(s)
  {
    if |s| > 1 {
      ExtremesBound(s[..|s| - 1]);
      assert forall i :: 0 <= i < |s| - 1 ==> s[..|s| - 1][i] == s[i];
    }
  }

  /** The minimum and the maximum of a window are entries of it. */
  lemma {:induction false} ExtremesAttained(s: seq<real>)
    requires |s| > 0
    ensures exists i :: 0 <= i < |s| && s[i] == MaxOf(s)
    ensures exists i :: 0 <= i < |s| && s[i] == MinOf(s)
  {
    if |s| == 1 {
      assert s[0] == MaxOf(s) && s[0] == MinOf(s);
    } else {
      var p := s[..|s| - 1];
      ExtremesAttained(p);
      var i :| 0 <= i < |p| && p[i] == MaxOf(p);
      var j :| 0 <= j < |p| && p[j] == MinOf(p);
      assert p[i] == s[i] && p[j] == s[j];
      if MaxOf(s) == s[|s| - 1] { assert s[|s| - 1] == MaxOf(s); } else { assert s[i] == MaxOf(s); }
      if MinOf(s) == s[|s| - 1] { assert s[|s| - 1] == MinOf(s); } else { assert s[j] == MinOf(s); }
    }
  }

  /** The mean of a window lies between its minimum and its maximum. */
  lemma MeanBetweenExtremes(s: seq<real>)
    requires |s| > 0
    ensures MinOf(s) <= Mean(s) <= MaxOf(s)
  {
    ExtremesBound(s);
    SumWithin(s, MinOf(s), MaxOf(s));
    QuotientBetween(Sum(s), |s| as real, MinOf(s), MaxOf(s));
  }

  /** Dividing by a positive n a total between n * lo and n * hi gives a value between lo and hi. */
  lemma QuotientBetween(total: real, n: real, lo: real, hi: real)
    requires n > 0.0 && n * lo <= total <= n * hi
    ensures lo <= total / n <= hi
  {
    var q := total / n;
    assert q * n == total;
    if q < lo {
      MulLt(q, lo, n);
      assert false;
    }
    if q > hi {
      MulLt(hi, q, n);
      assert false;
    }
  }

  /** Dividing by a non-zero d and multiplying back gives the numerator. */
  lemma DivTimes(x: real, d: real)
    requires d != 0.0
    ensures (x / d) * d == x
  {
  }

  /** Two quotients by the same non-zero d differ by the quotient of the difference. */
  lemma DivDifference(x: real, y: real, d: real)
    requires d != 0.0
    ensures x / d - y / d == (x - y) / d
  {
    DivTimes(x, d);
    DivTimes(y, d);
    DivTimes(x - y, d);
    assert (x / d - y / d) * d == x - y;
  }

  lemma MulLe(a: real, b: real, c: real)
    requires a <= b && c >= 0.0
    ensures a * c <= b * c
  {
  }

  lemma MulLeLeft(c: real, a: real, b: real)
    requires a <= b && c >= 0.0
    ensures c * a <= c * b
  {
  }

  /** Scaling by a factor in [0, 1] does not leave [0, x]. */
  lemma ScaleDown(x: real, f: real)
    requires x >= 0.0 && 0.0 <= f <= 1.0
    ensures 0.0 <= x * f <= x
  {
    MulLeLeft(x, 0.0, f);
    MulLeLeft(x, f, 1.0);
  }

  /** A part of a positive whole is a fraction in [0, 1] of it. */
  lemma FractionAtMostOne(part: real, whole: real)
    requires 0.0 <= part <= whole && whole > 0.0
    ensures 0.0 <= part / whole <= 1.0
  {
    var q := part / whole;
    assert q * whole == part;
    if q > 1.0 {
      MulLt(1.0, q, whole);
      assert false;
    }
  }

  lemma MulLt(a: real, b: real, c: real)
    requires a < b && c > 0.0
    ensures a * c < b * c
  {
  }

  /** `k = floor(x / u)` brackets `x` between `k * u` and `(k + 1) * u`. */
  lemma FloorQuotient(x: real, u: real, k: int)
    requires u > 0.0
    requires k == (x / u).Floor
    ensures (k as real) * u <= x
    ensures x < ((k + 1) as real) * u
  {
    var q := x / u;
    assert k as real <= q < (k + 1) as real;
    MulLe(k as real, q, u);
    MulLt(q, (k + 1) as real, u);
    assert q * u == x;
  }

  /** A wall-clock reading: the weekday (0 = Monday … 6 = Sunday, as `datetime.weekday()`) and the time of day in microseconds since midnight. */
  datatype Clock = Clock(weekday: int, micros: int)
  {
    predicate Valid() { 0 <= weekday < 7 && 0 <= micros < 24 * MicrosPerHour }

    function Hour(): int { micros / MicrosPerHour }

    function Minute(): int { (micros / MicrosPerMinute) % 60 }

    /** `hour * 60 + minute`, ignoring seconds. */
    function MinutesOfDay(): int { micros / MicrosPerMinute }
  }

  const MicrosPerMinute: int := 60_000_000
  const MicrosPerHour: int := 60 * MicrosPerMinute

  /** The clock time hour:minute:00.000000 in microseconds. */
  function At(hour: int, minute: int): int { hour * MicrosPerHour + minute * MicrosPerMinute }

  lemma HourMinuteSplit(c: Clock)
    requires c.Valid()
    ensures c.MinutesOfDay() == 60 * c.Hour() + c.Minute()
    ensures 0 <= c.Minute() < 60 && 0 <= c.Hour() < 24
  {
  }
}
