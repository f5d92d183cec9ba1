/**
 * Shared vocabulary of the trade-simulation layer: bar timestamps, the
 * columns of one OHLC bar row after signal generation, and small numeric
 * helpers (Python's `min`/`max` on floats, rounding to a decimal grid).
 */
module Market {
  import opened Wrappers

  /** A bar or trade timestamp, down to the minute. */
  datatype Timestamp = Timestamp(year: int, month: int, day: int, hour: int, minute: int)

  /** The `'%Y-%m'` key the engines group closed trades by. */
  datatype MonthKey = MonthKey(year: int, month: int)

  function MonthOf(t: Timestamp): (k: MonthKey)
    ensures k.year == t.year && k.month == t.month
  {
    MonthKey(t.year, t.month)
  }

  /**
   * One row of the bar table the engines replay. The signal columns are
   * produced by a strategy before the replay starts; optional columns
   * (`atr`, `trailing_stop`, `position_size`) are `None` when absent.
   */
  datatype Bar = Bar(
    time: Timestamp,
    high: real,
    low: real,
    close: real,
    signal: int,
    entryPrice: real,
    slPrice: real,
    tpPrice: real,
    strategy: string,
    atr: Option<real>,
    trailingStop: Option<bool>,
    positionSize: Option<real>)

  function Min(a: real, b: real): (r: real)
    ensures r <= a && r <= b && (r == a || r == b)
  {
    if a <= b then a else b
  }

  function Max(a: real, b: real): (r: real)
    ensures r >= a && r >= b && (r == a || r == b)
  {
    if a >= b then a else b
  }

  /** `max(lo, min(hi, x))`, the clamp idiom used throughout the source. */
  function Clamp(lo: real, hi: real, x: real): (r: real)
    requires lo <= hi
    ensures lo <= r <= hi
    ensures lo <= x <= hi ==> r == x
    ensures x < lo ==> r == lo
    ensures x > hi ==> r == hi
  {
    Max(lo, Min(hi, x))
  }

  /** Clamping keeps the order of its arguments. */
  lemma ClampMono(lo: real, hi: real, x: real, y: real)
    requires lo <= hi && x <= y
    ensures Clamp(lo, hi, x) <= Clamp(lo, hi, y)
  {
  }

  /** Python's `abs` on a float. */
  function Abs(x: real): (r: real)
    ensures r >= 0.0 && (r == x || r == -x)
  {
    if x >= 0.0 then x else -x
  }

  /** Python's `round(x, 2)`: to the nearest hundredth (ties upward here). */
  function Round2(x: real): (r: real)
    ensures x - 0.005 < r <= x + 0.005
  {
    ((x * 100.0 + 0.5).Floor as real) / 100.0
  }

  /** Python's `round(x, 1)`: to the nearest tenth (ties upward here). */
  function Round1(x: real): (r: real)
    ensures x - 0.05 < r <= x + 0.05
  {
    ((x * 10.0 + 0.5).Floor as real) / 10.0
  }

  /** Rounding to the nearest hundredth never passes a hundredth-grid bound. */
  lemma Round2BelowGridPoint(x: real, k: int)
    requires x <= k as real / 100.0
    ensures Round2(x) <= k as real / 100.0
  {
    assert x * 100.0 + 0.5 < (k + 1) as real;
    assert (x * 100.0 + 0.5).Floor <= k;
  }

  /** Python's `int(x)` on a float: truncation toward zero. */
  function TruncateTowardZero(x: real): (r: int)
    ensures x >= 0.0 ==> 0 <= r && r as real <= x < r as real + 1.0
    ensures x < 0.0 ==> r <= 0 && r as real - 1.0 < x <= r as real
  {
    if x >= 0.0 then x.Floor else -((-x).Floor)
  }

  /** Scaling both sides of an inequality by a non-negative factor keeps it. */
  lemma MulMono(a: real, b: real, c: real)
    requires a <= b && c >= 0.0
    ensures a * c <= b * c
  {
    assert (b - a) * c >= 0.0;
  }

  /** Scaling both sides of a strict inequality by a positive factor keeps it. */
  lemma MulMonoStrict(a: real, b: real, c: real)
    requires a < b && c > 0.0
    ensures a * c < b * c
  {
    assert (b - a) * c > 0.0;
  }

  /** Multiplying a quotient back by its non-zero divisor gives the dividend. */
  lemma DivCancel(q: real, b: real, d: real)
    requires d != 0.0 && q == b / d
    ensures q * d == b
  {
  }

  /** A non-negative dividend over a positive divisor gives a non-negative quotient. */
  lemma DivNonNegative(q: real, b: real, d: real)
    requires b >= 0.0 && d > 0.0 && q == b / d
    ensures q >= 0.0
  {
    DivMono(0.0, b, d);
    ZeroOver(d);
  }

  /** A bracket `lo <= x < hi` scaled by a positive factor. */
  lemma BracketScaled(lo: real, x: real, hi: real, c: real)
    requires lo <= x < hi && c > 0.0
    ensures lo * c <= x * c < hi * c
  {
    MulMono(lo, x, c);
    MulMonoStrict(x, hi, c);
  }

  /** A value scaled by a non-negative factor stays between its bounds scaled the same way. */
  lemma ScaledBounds(c: real, x: real, w: real, lo: real, hi: real)
    requires lo <= x <= hi && w >= 0.0 && c == x * w
    ensures lo * w <= c <= hi * w
  {
    MulMono(lo, x, w);
    MulMono(x, hi, w);
  }

  /** Dividing both sides of an inequality by a positive number keeps it. */
  lemma DivMono(a: real, b: real, d: real)
    requires a <= b && d > 0.0
    ensures a / d <= b / d
  {
    assert (b - a) / d >= 0.0;
  }

  /** Equal numerators over the same divisor give equal quotients. */
  lemma DivideEqual(a: real, b: real, d: real)
    requires a == b && d != 0.0
    ensures a / d == b / d
  {
  }

  lemma SelfOver(d: real)
    requires d != 0.0
    ensures d / d == 1.0
  {
  }

  lemma ZeroOver(d: real)
    requires d != 0.0
    ensures 0.0 / d == 0.0
  {
  }

  /** Sum of a list of reals, folded from the left as Python's `sum`. */
  function Sum(xs: seq<real>): real {
    if xs == [] then 0.0 else Sum(xs[..|xs| - 1]) + xs[|xs| - 1]
  }

  lemma {:induction false} SumAppend(a: seq<real>, b: seq<real>)
    ensures Sum(a + b) == Sum(a) + Sum(b)
  {
    if b != [] {
      assert (a + b)[..|a + b| - 1] == a + b[..|b| - 1];
      SumAppend(a, b[..|b| - 1]);
    } else {
      assert a + b == a;
    }
  }

  /** Dividing every term by `t` divides the sum by `t`. */
  lemma {:induction false} SumScaled(xs: seq<real>, zs: seq<real>, t: real)
    requires t != 0.0 && |zs| == |xs|
    requires forall i | 0 <= i < |xs| :: zs[i] == xs[i] / t
    ensures Sum(zs) == Sum(xs) / t
  {
    if xs != [] {
      var n := |xs| - 1;
      SumScaled(xs[..n], zs[..n], t);
      assert Sum(zs) == Sum(xs[..n]) / t + xs[n] / t;
    }
  }

  /** The weighted combination `p·x + q·y`. */
  function Blend(p: real, x: real, q: real, y: real): real {
    p * x + q * y
  }

  /** Blends add termwise. */
  lemma BlendAdd(p: real, a: real, x: real, q: real, b: real, y: real)
    ensures Blend(p, a, q, b) + Blend(p, x, q, y) == Blend(p, a + x, q, b + y)
  {
  }

  /** The sum of a termwise linear combination is that combination of the sums. */
  lemma {:induction false} SumBlend(xs: seq<real>, ys: seq<real>, zs: seq<real>, p: real, q: real)
    requires |ys| == |xs| && |zs| == |xs|
    requires forall i | 0 <= i < |xs| :: zs[i] == Blend(p, xs[i], q, ys[i])
    ensures Sum(zs) == p * Sum(xs) + q * Sum(ys)
  {
    if xs != [] {
      var n := |xs| - 1;
      SumBlend(xs[..n], ys[..n], zs[..n], p, q);
      BlendAdd(p, Sum(xs[..n]), xs[n], q, Sum(ys[..n]), ys[n]);
    }
  }

  /** Each term over a non-zero total: the shares add up to 1. */
  lemma SharesSumToOne(xs: seq<real>, zs: seq<real>)
    requires Sum(xs) != 0.0 && |zs| == |xs|
    requires forall i | 0 <= i < |xs| :: zs[i] == xs[i] / Sum(xs)
    ensures Sum(zs) == 1.0
  {
    SumScaled(xs, zs, Sum(xs));
    SelfOver(Sum(xs));
  }

  /** A termwise blend of two lists summing to 1, with weights summing to 1, sums to 1. */
  lemma BlendSumToOne(xs: seq<real>, ys: seq<real>, zs: seq<real>, p: real, q: real)
    requires Sum(xs) == 1.0 && Sum(ys) == 1.0 && p + q == 1.0
    requires |ys| == |xs| && |zs| == |xs|
    requires forall i | 0 <= i < |xs| :: zs[i] == Blend(p, xs[i], q, ys[i])
    ensures Sum(zs) == 1.0
  {
    SumBlend(xs, ys, zs, p, q);
  }

  /** Non-negative terms give a non-negative sum, and a positive sum once one term is positive. */
  lemma {:induction false} SumPositive(xs: seq<real>)
    requires forall i | 0 <= i < |xs| :: xs[i] >= 0.0
    ensures Sum(xs) >= 0.0
    ensures (exists i | 0 <= i < |xs| :: xs[i] > 0.0) ==> Sum(xs) > 0.0
  {
    if xs != [] {
      var n := |xs| - 1;
      SumPositive(xs[..n]);
      if exists i | 0 <= i < |xs| :: xs[i] > 0.0 {
        var i :| 0 <= i < |xs| && xs[i] > 0.0;
        if i < n {
          assert xs[..n][i] > 0.0;
        }
      }
    }
  }

  ghost predicate Distinct<T>(s: seq<T>) {
    forall i, j | 0 <= i < j < |s| :: s[i] != s[j]
  }

  /** A list with a head has no repetition exactly when its tail has none and does not repeat the head. */
  lemma DistinctCons<T>(x: T, s: seq<T>)
    ensures Distinct([x] + s) <==> x !in s && Distinct(s)
  {
    if Distinct([x] + s) {
      forall i, j | 0 <= i < j < |s| ensures s[i] != s[j] {
        assert ([x] + s)[i + 1] == s[i] && ([x] + s)[j + 1] == s[j];
      }
      forall i | 0 <= i < |s| ensures s[i] != x {
        assert ([x] + s)[0] == x && ([x] + s)[i + 1] == s[i];
      }
    }
    if x !in s && Distinct(s) {
      forall i, j | 0 <= i < j < |[x] + s| ensures ([x] + s)[i] != ([x] + s)[j] {
        assert ([x] + s)[j] == s[j - 1] && s[j - 1] in s;
        if i > 0 {
          assert ([x] + s)[i] == s[i - 1];
        }
      }
    }
  }

  /** Appending an element not yet present keeps a list free of repetition. */
  lemma DistinctSnoc<T>(s: seq<T>, x: T)
    requires Distinct(s) && x !in s
    ensures Distinct(s + [x])
  {
    forall i, j | 0 <= i < j < |s + [x]| ensures (s + [x])[i] != (s + [x])[j] {
      assert (s + [x])[i] == s[i];
      if j == |s| {
        assert s[i] in s;
      } else {
        assert (s + [x])[j] == s[j];
      }
    }
  }

  /**
   * Removing the element at `i` from a list free of repetition leaves a
   * list free of repetition that holds every other element and not that
   * one.
   */
  lemma DistinctRemove<T>(s: seq<T>, i: nat)
    requires Distinct(s) && i < |s|
    ensures Distinct(s[..i] + s[i + 1..])
    ensures s[i] !in s[..i] + s[i + 1..]
    ensures forall x | x in s :: x == s[i] || x in s[..i] + s[i + 1..]
    ensures forall x | x in s[..i] + s[i + 1..] :: x in s
  {
    var r := s[..i] + s[i + 1..];
    assert |r| == |s| - 1;
    assert forall k | 0 <= k < |r| :: r[k] == if k < i then s[k] else s[k + 1];
    forall x | x in s ensures x == s[i] || x in r {
      var k :| 0 <= k < |s| && s[k] == x;
      if k < i {
        assert r[k] == x;
      } else if k > i {
        assert r[k - 1] == x;
      }
    }
  }

  /**
   * The elements of `s`, in list order, whose flag in `flags` equals
   * `which`.
   */
  function Select<T>(s: seq<T>, flags: seq<bool>, which: bool): (r: seq<T>)
    requires |flags| == |s|
    ensures |r| <= |s|
  {
    if s == [] then []
    else
      var n := |s| - 1;
      Select(s[..n], flags[..n], which) + (if flags[n] == which then [s[n]] else [])
  }

  /** `Select` keeps exactly the elements whose flag matches, and no others. */
  lemma {:induction false} SelectMembers<T>(s: seq<T>, flags: seq<bool>, which: bool)
    requires |flags| == |s|
    ensures forall p | p in Select(s, flags, which) :: exists i | 0 <= i < |s| :: s[i] == p && flags[i] == which
    ensures forall i | 0 <= i < |s| && flags[i] == which :: s[i] in Select(s, flags, which)
  {
    if s != [] {
      var n := |s| - 1;
      SelectMembers(s[..n], flags[..n], which);
      forall p | p in Select(s, flags, which)
        ensures exists i | 0 <= i < |s| :: s[i] == p && flags[i] == which
      {
        if p in Select(s[..n], flags[..n], which) {
          var i :| 0 <= i < n && s[..n][i] == p && flags[..n][i] == which;
          assert s[i] == p && flags[i] == which;
        } else {
          assert s[n] == p && flags[n] == which;
        }
      }
      forall i | 0 <= i < |s| && flags[i] == which
        ensures s[i] in Select(s, flags, which)
      {
        if i < n {
          assert s[..n][i] == s[i] && flags[..n][i] == flags[i];
        }
      }
    }
  }

  /** Extending a prefix by one element extends its selection accordingly. */
  lemma SelectStep<T>(s: seq<T>, flags: seq<bool>, i: nat, which: bool)
    requires |flags| == |s| && i < |s|
    ensures Select(s[..i + 1], flags[..i + 1], which)
         == Select(s[..i], flags[..i], which) + (if flags[i] == which then [s[i]] else [])
  {
    assert s[..i + 1][..i] == s[..i];
    assert flags[..i + 1][..i] == flags[..i];
  }

  /** Every element lands in exactly one of the two selections: none is lost or duplicated. */
  lemma {:induction false} SelectCounts<T>(s: seq<T>, flags: seq<bool>)
    requires |flags| == |s|
    ensures |Select(s, flags, true)| + |Select(s, flags, false)| == |s|
  {
    if s != [] {
      SelectCounts(s[..|s| - 1], flags[..|s| - 1]);
    }
  }

  /** Selecting from a list without repetitions gives a list without repetitions. */
  lemma {:induction false} SelectDistinct<T>(s: seq<T>, flags: seq<bool>, which: bool)
    requires |flags| == |s| && Distinct(s)
    ensures Distinct(Select(s, flags, which))
  {
    if s != [] {
      var n := |s| - 1;
      assert Distinct(s[..n]);
      SelectDistinct(s[..n], flags[..n], which);
      SelectMembers(s[..n], flags[..n], which);
      assert s[n] !in Select(s[..n], flags[..n], which);
    }
  }
}
