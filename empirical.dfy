/**
 * The empirical service-time model of utils.py: the empirical CDF G of an
 * ascending sample of service durations (in slots), its integral from 0 to t
 * computed by the trapezoidal rule over the step function of G, and the
 * ascending sample itself.
 */
module Empirical {
  import opened Wrappers

  /** The sample is ascending, as getOrderedService leaves it. */
  predicate Sorted(s: seq<real>) {
    forall i, j :: 0 <= i <= j < |s| ==> s[i] <= s[j]
  }

  /**
   * How far the scan `while listOS[key] <= t` advances: the length of the
   * longest prefix of s whose elements are all at most t.
   */
  function PrefixLeq(s: seq<real>, t: real): (m: nat)
    ensures m <= |s|
    ensures forall i :: 0 <= i < m ==> s[i] <= t
    ensures m < |s| ==> t < s[m]
  {
    if s == [] || t < s[0] then 0 else 1 + PrefixLeq(s[1..], t)
  }

  /** The number of samples at most t, wherever they stand in s. */
  function CountLeq(s: seq<real>, t: real): nat {
    if s == [] then 0 else (if s[0] <= t then 1 else 0) + CountLeq(s[1..], t)
  }

  /** The sum of t - s[i] over the samples s[i] at most t, wherever they stand in s. */
  function SumLeq(s: seq<real>, t: real): real {
    if s == [] then 0.0 else (if s[0] <= t then t - s[0] else 0.0) + SumLeq(s[1..], t)
  }

  /** The sum of t - s[i] over all of s. */
  function SumGaps(s: seq<real>, t: real): real {
    if s == [] then 0.0 else (t - s[0]) + SumGaps(s[1..], t)
  }

  // ---------------------------------------------------------------------
  // evalEmpiricalDist

  /**
   * G(t) as evalEmpiricalDist computes it: the length of the scanned prefix
   * over n. An empty sample fails, because listOS[0] is read unconditionally.
   */
  function Cdf(s: seq<real>, t: real): (r: Result<real>)
    ensures r.Err? <==> s == []
    ensures r.Err? ==> r.error == IndexError
    ensures r.Ok? ==> 0.0 <= r.value <= 1.0
  {
    if s == [] then Err(IndexError) else Ok(PrefixLeq(s, t) as real / |s| as real)
  }

  /** The prefix of listOS that the scan collects into storeService. */
  method SamplesUpTo(t: real, listOS: seq<real>) returns (storeService: seq<real>)
    requires listOS != []
    ensures storeService == listOS[..PrefixLeq(listOS, t)]
  {
    var n := |listOS|;
    storeService := [];
    var key := 0;
    var notComplete := true;
    while notComplete && listOS[key] <= t
      invariant 0 <= key <= n
      invariant notComplete <==> key < n
      invariant storeService == listOS[..key]
      invariant forall i :: 0 <= i < key ==> listOS[i] <= t
      decreases n - key
    {
      storeService := storeService + [listOS[key]];
      key := key + 1;
      if key >= n {
        notComplete := false;  // the index left np.arange(0, len(listOS))
      }
    }
    assert key < n ==> t < listOS[key];
    PrefixLeqUnique(listOS, t, key);
  }

  /** The three facts in PrefixLeq's contract determine it. */
  lemma PrefixLeqUnique(s: seq<real>, t: real, m: nat)
    requires m <= |s|
    requires forall i :: 0 <= i < m ==> s[i] <= t
    requires m < |s| ==> t < s[m]
    ensures m == PrefixLeq(s, t)
  {
  }

  method EvalEmpiricalDist(t: real, listOS: seq<real>) returns (r: Result<real>)
    ensures r == Cdf(listOS, t)
  {
    var n := |listOS|;
    if n == 0 {
      return Err(IndexError);
    }
    var storeService := SamplesUpTo(t, listOS);
    r := Ok(|storeService| as real / n as real);
  }

  lemma {:induction false} CountLeqNone(s: seq<real>, t: real)
    requires forall i :: 0 <= i < |s| ==> t < s[i]
    ensures CountLeq(s, t) == 0
    ensures SumLeq(s, t) == 0.0
  {
    if s != [] {
      CountLeqNone(s[1..], t);
    }
  }

  /** On an ascending sample the scan stops at the first sample above t, so it counts every sample at most t. */
  lemma {:induction false} SortedPrefixIsCount(s: seq<real>, t: real)
    requires Sorted(s)
    ensures PrefixLeq(s, t) == CountLeq(s, t)
    ensures SumGaps(s[..PrefixLeq(s, t)], t) == SumLeq(s, t)
  {
    if s == [] {
    } else if t < s[0] {
      CountLeqNone(s, t);
      assert s[..0] == [];
    } else {
      var m := PrefixLeq(s[1..], t);
      assert Sorted(s[1..]);
      SortedPrefixIsCount(s[1..], t);
      var p := s[..1 + m];
      assert p[0] == s[0] && p[1..] == s[1..][..m];
      assert SumGaps(p, t) == (t - s[0]) + SumGaps(s[1..][..m], t);
    }
  }

  /** G(t) is the fraction of samples at most t. */
  lemma CdfCountsSamples(s: seq<real>, t: real)
    requires Sorted(s) && s != []
    ensures Cdf(s, t) == Ok(CountLeq(s, t) as real / |s| as real)
  {
    SortedPrefixIsCount(s, t);
  }

  /** G is 0 below the first sample and 1 from the last sample of an ascending sample on. */
  lemma CdfBoundary(s: seq<real>, t: real)
    requires s != []
    ensures t < s[0] ==> Cdf(s, t) == Ok(0.0)
    ensures Sorted(s) && s[|s| - 1] <= t ==> Cdf(s, t) == Ok(1.0)
  {
    if t < s[0] {
      assert PrefixLeq(s, t) == 0;
    }
    if Sorted(s) && s[|s| - 1] <= t {
      assert forall i :: 0 <= i < |s| ==> s[i] <= s[|s| - 1];
      PrefixLeqUnique(s, t, |s|);
      assert |s| as real / |s| as real == 1.0;
    }
  }

  lemma PrefixLeqMonotone(s: seq<real>, t1: real, t2: real)
    requires t1 <= t2
    ensures PrefixLeq(s, t1) <= PrefixLeq(s, t2)
  {
  }

  /** G is non-decreasing. */
  lemma CdfMonotone(s: seq<real>, t1: real, t2: real)
    requires s != [] && t1 <= t2
    ensures Cdf(s, t1).value <= Cdf(s, t2).value
  {
    PrefixLeqMonotone(s, t1, t2);
    DivMonotone(PrefixLeq(s, t1) as real, PrefixLeq(s, t2) as real, |s| as real);
  }

  lemma DivMonotone(a: real, b: real, n: real)
    requires a <= b && n > 0.0
    ensures a / n <= b / n
  {
  }

  // ---------------------------------------------------------------------
  // getEmpiricalIntegral

  lemma {:induction false} SumGapsNonneg(s: seq<real>, t: real)
    requires forall i :: 0 <= i < |s| ==> s[i] <= t
    ensures SumGaps(s, t) >= 0.0
  {
    if s != [] {
      SumGapsNonneg(s[1..], t);
    }
  }

  /**
   * The closed form of the integral of G from 0 to t: (1/n) times the sum of
   * t - s[i] over the scanned samples. An empty sample fails as in Cdf.
   */
  function CdfIntegral(s: seq<real>, t: real): (r: Result<real>)
    ensures r.Err? <==> s == []
    ensures r.Err? ==> r.error == IndexError
    ensures r.Ok? ==> r.value >= 0.0
    ensures r.Ok? && t < s[0] ==> r.value == 0.0
  {
    if s == [] then Err(IndexError)
    else
      var p := s[..PrefixLeq(s, t)];
      SumGapsNonneg(p, t);
      Ok(SumGaps(p, t) / |s| as real)
  }

  /** Each sample twice: the abscissae of the step function between 0 and t. */
  function Doubled(s: seq<real>): (r: seq<real>)
    ensures |r| == 2 * |s|
  {
    if s == [] then [] else [s[0], s[0]] + Doubled(s[1..])
  }

  /** The level reached from c after m jumps of height h. */
  function Level(m: nat, c: real, h: real): real {
    if m == 0 then c else Level(m - 1, c + h, h)
  }

  /** The levels before and after each of m jumps of height h, starting from level c. */
  function Ramp(m: nat, c: real, h: real): (r: seq<real>)
    ensures |r| == 2 * m
  {
    if m == 0 then [] else [c, c + h] + Ramp(m - 1, c + h, h)
  }

  /** np.trapz(y, x): the trapezoidal rule over the polyline through the points (x[i], y[i]). */
  function Trapz(x: seq<real>, y: seq<real>): real
    requires |x| == |y|
  {
    if |x| < 2 then 0.0 else Trapezoid(x[0], x[1], y[0], y[1]) + Trapz(x[1..], y[1..])
  }

  /**
   * Over non-decreasing abscissae and non-negative ordinates the rule
   * gives a non-negative area.
   */
  lemma {:induction false} TrapzNonneg(x: seq<real>, y: seq<real>)
    requires |x| == |y|
    requires forall i :: 0 <= i < |x| - 1 ==> x[i] <= x[i + 1]
    requires forall i :: 0 <= i < |y| ==> y[i] >= 0.0
    ensures Trapz(x, y) >= 0.0
    decreases |x|
  {
    if |x| >= 2 {
      TrapzNonneg(x[1..], y[1..]);
      NonnegProduct(x[1] - x[0], y[0] + y[1]);
    }
  }

  /** The area under the segment from (x0, y0) to (x1, y1). */
  function Trapezoid(x0: real, x1: real, y0: real, y1: real): real {
    (x1 - x0) * (y0 + y1) / 2.0
  }

  lemma {:induction false} DoubledAppend(s: seq<real>, e: real)
    ensures Doubled(s + [e]) == Doubled(s) + [e, e]
  {
    if s != [] {
      assert (s + [e])[1..] == s[1..] + [e];
      DoubledAppend(s[1..], e);
    }
  }

  lemma {:induction false} LevelStep(m: nat, c: real, h: real)
    ensures Level(m + 1, c, h) == Level(m, c, h) + h
  {
    if m > 0 {
      LevelStep(m - 1, c + h, h);
    }
  }

  /** The level after k jumps of 1/n is k/n. */
  lemma {:induction false} LevelIsMultiple(k: nat, c: real, h: real)
    ensures Level(k, c, h) == c + k as real * h
  {
    if k > 0 {
      LevelIsMultiple(k - 1, c + h, h);
    }
  }

  lemma {:induction false} RampAppend(m: nat, c: real, h: real)
    ensures Ramp(m + 1, c, h) == Ramp(m, c, h) + [Level(m, c, h), Level(m, c, h) + h]
  {
    if m > 0 {
      RampAppend(m - 1, c + h, h);
    }
  }

  /**
   * The abscissae of the step function of getEmpiricalIntegral, lines 168-172:
   * [0, s1, s1, ..., sm, sm, t] for storeService = [s1, ..., sm, t].
   */
  method StepAbscissae(storeService: seq<real>) returns (x: seq<real>)
    requires |storeService| >= 1
    ensures |x| == 2 * |storeService|
    ensures x == [0.0] + Doubled(storeService[..|storeService| - 1]) + [storeService[|storeService| - 1]]
  {
    var m := |storeService| - 1;
    x := [0.0];
    var i := 0;
    while i < m
      invariant 0 <= i <= m
      invariant x == [0.0] + Doubled(storeService[..i])
    {
      var e := storeService[i];
      assert storeService[..i + 1] == storeService[..i] + [e];
      DoubledAppend(storeService[..i], e);
      x := x + [e, e];
      i := i + 1;
    }
    x := x + [storeService[m]];
  }

  /**
   * The ordinates of the step function of getEmpiricalIntegral, lines 173-180:
   * [0, 0, 1/n, 1/n, 2/n, ..., m/n, m/n], the cumulative count before and
   * after each of the m jumps, with the final level repeated at t.
   */
  method StepOrdinates(m: nat, n: nat) returns (y: seq<real>)
    requires n > 0
    ensures |y| == 2 * m + 2
    ensures y == [0.0] + Ramp(m, 0.0, 1.0 / n as real) + [Level(m, 0.0, 1.0 / n as real)]
  {
    var h := 1.0 / n as real;
    y := [0.0];
    var cuml := 0.0;
    var i := 0;
    while i < m
      invariant 0 <= i <= m
      invariant cuml == Level(i, 0.0, h)
      invariant y == [0.0] + Ramp(i, 0.0, h)
    {
      RampAppend(i, 0.0, h);
      LevelStep(i, 0.0, h);
      y := y + [cuml];
      cuml := cuml + h;  // cuml += 1.0/n
      y := y + [cuml];
      i := i + 1;
    }
    y := y + [cuml];
  }

  /**
   * The trapezoidal rule is exact on a step function: starting at (a, c),
   * with a jump of h at each of s1, ..., sm, and ending at t, the area is
   * c*(t - a) + h*(sum of t - si).
   */
  lemma {:induction false} TrapzOfSteps(a: real, s: seq<real>, t: real, c: real, h: real)
    ensures |[a] + Doubled(s) + [t]| == |[c] + Ramp(|s|, c, h) + [Level(|s|, c, h)]|
    ensures Trapz([a] + Doubled(s) + [t], [c] + Ramp(|s|, c, h) + [Level(|s|, c, h)])
            == c * (t - a) + h * SumGaps(s, t)
    decreases |s|
  {
    var x := [a] + Doubled(s) + [t];
    var y := [c] + Ramp(|s|, c, h) + [Level(|s|, c, h)];
    if s == [] {
      assert x == [a, t];
      assert y == [c, c];
      assert Trapz(x, y) == Trapezoid(a, t, c, c) + Trapz(x[1..], y[1..]);
    } else {
      var s0, rest := s[0], s[1..];
      var c1 := c + h;
      var x2 := [s0] + Doubled(rest) + [t];
      var y2 := [c1] + Ramp(|rest|, c1, h) + [Level(|rest|, c1, h)];
      assert Ramp(|s|, c, h) == [c, c1] + Ramp(|rest|, c1, h);
      assert Level(|s|, c, h) == Level(|rest|, c1, h);
      assert Doubled(s) == [s0, s0] + Doubled(rest);
      assert x == [a, s0] + x2;
      assert y == [c, c] + y2;
      TrapzCons2(a, s0, x2, c, c, y2);
      TrapzOfSteps(s0, rest, t, c1, h);
      StepArea(a, s0, t, c, h, SumGaps(rest, t));
    }
  }

  /** Trapz unfolded over two leading points. */
  lemma TrapzCons2(a: real, b: real, x: seq<real>, c: real, d: real, y: seq<real>)
    requires |x| == |y| >= 1
    ensures Trapz([a, b] + x, [c, d] + y) == Trapezoid(a, b, c, d) + (Trapezoid(b, x[0], d, y[0]) + Trapz(x, y))
  {
    assert [a, b] + x == [a] + ([b] + x) && [c, d] + y == [c] + ([d] + y);
    TrapzCons(a, [b] + x, c, [d] + y);
    TrapzCons(b, x, d, y);
  }

  /** Trapz unfolded over one leading point. */
  lemma TrapzCons(a: real, x: seq<real>, c: real, y: seq<real>)
    requires |x| == |y| >= 1
    ensures Trapz([a] + x, [c] + y) == Trapezoid(a, x[0], c, y[0]) + Trapz(x, y)
  {
    var x1, y1 := [a] + x, [c] + y;
    assert x1[1..] == x && y1[1..] == y;
    assert x1[0] == a && x1[1] == x[0] && y1[0] == c && y1[1] == y[0];
  }

  /** The arithmetic of one step of TrapzOfSteps: a flat piece at level c, a vertical piece, then the rest one level higher. */
  lemma StepArea(a: real, s0: real, t: real, c: real, h: real, g: real)
    ensures Trapezoid(a, s0, c, c) + (Trapezoid(s0, s0, c, c + h) + ((c + h) * (t - s0) + h * g))
            == c * (t - a) + h * ((t - s0) + g)
  {
  }

  method GetEmpiricalIntegral(t: real, listOS: seq<real>) returns (r: Result<real>)
    ensures r == CdfIntegral(listOS, t)
  {
    var n := |listOS|;
    if n == 0 {
      return Err(IndexError);
    }
    var storeService := SamplesUpTo(t, listOS);
    var samples := storeService;
    storeService := storeService + [t];  // the time point closes the step function
    var x := StepAbscissae(storeService);
    var y := StepOrdinates(|samples|, n);
    var h := 1.0 / n as real;
    assert storeService[..|storeService| - 1] == samples;
    TrapzOfSteps(0.0, samples, t, 0.0, h);
    var integral := Trapz(x, y);
    assert integral == h * SumGaps(samples, t);
    assert h * SumGaps(samples, t) == SumGaps(samples, t) / n as real;
    r := Ok(integral);
  }

  lemma {:induction false} SumGapsAppend(p: seq<real>, q: seq<real>, t: real)
    ensures SumGaps(p + q, t) == SumGaps(p, t) + SumGaps(q, t)
  {
    if p != [] {
      assert (p + q)[0] == p[0] && (p + q)[1..] == p[1..] + q;
      SumGapsAppend(p[1..], q, t);
    } else {
      assert p + q == q;
    }
  }

  lemma {:induction false} SumGapsShift(p: seq<real>, t1: real, t2: real)
    ensures SumGaps(p, t2) == SumGaps(p, t1) + |p| as real * (t2 - t1)
  {
    if p != [] {
      SumGapsShift(p[1..], t1, t2);
    }
  }

  /** On an ascending sample the integral is (1/n) times the sum of t - si over the samples si at most t. */
  lemma CdfIntegralClosedForm(s: seq<real>, t: real)
    requires Sorted(s) && s != []
    ensures CdfIntegral(s, t) == Ok(SumLeq(s, t) / |s| as real)
  {
    SortedPrefixIsCount(s, t);
  }

  /** The integral of G is non-decreasing in t. */
  lemma CdfIntegralMonotone(s: seq<real>, t1: real, t2: real)
    requires s != [] && t1 <= t2
    ensures CdfIntegral(s, t1).value <= CdfIntegral(s, t2).value
  {
    var g1, g2 := SumGaps(s[..PrefixLeq(s, t1)], t1), SumGaps(s[..PrefixLeq(s, t2)], t2);
    ScannedGapsMonotone(s, t1, t2);
    DivMonotone(g1, g2, |s| as real);
  }

  /** The summed gaps of the scanned samples grow with t. */
  lemma ScannedGapsMonotone(s: seq<real>, t1: real, t2: real)
    requires t1 <= t2
    ensures SumGaps(s[..PrefixLeq(s, t1)], t1) <= SumGaps(s[..PrefixLeq(s, t2)], t2)
  {
    PrefixLeqMonotone(s, t1, t2);
    SumGapsGrow(s[..PrefixLeq(s, t1)], t1, t2);
    PrefixGapsGrow(s, PrefixLeq(s, t1), PrefixLeq(s, t2), t2);
  }

  /** Moving t later widens every gap. */
  lemma SumGapsGrow(p: seq<real>, t1: real, t2: real)
    requires t1 <= t2
    ensures SumGaps(p, t1) <= SumGaps(p, t2)
  {
    SumGapsShift(p, t1, t2);
    NonnegProduct(|p| as real, t2 - t1);
  }

  /** More samples at most t add non-negative gaps. */
  lemma PrefixGapsGrow(s: seq<real>, m1: nat, m2: nat, t: real)
    requires m1 <= m2 <= |s| && forall i :: 0 <= i < m2 ==> s[i] <= t
    ensures SumGaps(s[..m1], t) <= SumGaps(s[..m2], t)
  {
    assert s[..m2] == s[..m1] + s[m1..m2];
    SumGapsAppend(s[..m1], s[m1..m2], t);
    SumGapsNonneg(s[m1..m2], t);
  }

  lemma NonnegProduct(a: real, b: real)
    requires 0.0 <= a && 0.0 <= b
    ensures 0.0 <= a * b
  {
  }

  lemma {:induction false} SumGapsAllAt(s: seq<real>, t: real)
    requires forall i :: 0 <= i < |s| ==> s[i] == t
    ensures SumGaps(s, t) == 0.0
  {
    if s != [] {
      SumGapsAllAt(s[1..], t);
    }
  }

  /** With non-negative durations the integral from 0 to 0 vanishes. */
  lemma CdfIntegralAtZero(s: seq<real>)
    requires s != [] && forall i :: 0 <= i < |s| ==> 0.0 <= s[i]
    ensures CdfIntegral(s, 0.0) == Ok(0.0)
  {
    SumGapsAllAt(s[..PrefixLeq(s, 0.0)], 0.0);
  }

  // ---------------------------------------------------------------------
  // getOrderedService, on durations already parsed from the timestamps

  function Insert(x: real, s: seq<real>): (r: seq<real>)
    requires Sorted(s)
    ensures Sorted(r)
    ensures multiset(r) == multiset(s) + multiset{x}
    ensures |r| == |s| + 1 && r[0] == if s != [] && s[0] < x then s[0] else x
  {
    if s == [] then [x]
    else if x <= s[0] then SortedCons(x, s); [x] + s
    else
      SortedTail(s);
      var r' := Insert(x, s[1..]);
      SortedCons(s[0], r');
      MultisetCons(s[0], r', s, x);
      [s[0]] + r'
  }

  lemma MultisetCons(a: real, r: seq<real>, s: seq<real>, x: real)
    requires s != [] && s[0] == a && multiset(r) == multiset(s[1..]) + multiset{x}
    ensures multiset([a] + r) == multiset(s) + multiset{x}
  {
    assert s == [a] + s[1..];
  }

  lemma SortedTail(s: seq<real>)
    requires Sorted(s) && s != []
    ensures Sorted(s[1..]) && forall i :: 0 <= i < |s| - 1 ==> s[0] <= s[1..][i]
  {
  }

  /** An element no larger than the head of an ascending list extends it. */
  lemma SortedCons(a: real, r: seq<real>)
    requires Sorted(r) && (r != [] ==> a <= r[0])
    ensures Sorted([a] + r)
  {
    var ar := [a] + r;
    forall i, j | 0 <= i <= j < |ar|
      ensures ar[i] <= ar[j]
    {
      if 0 < i {
        assert ar[i] == r[i - 1] && ar[j] == r[j - 1];
      } else if 0 < j {
        assert a <= r[0] <= r[j - 1];
      }
    }
  }

  /** list.sort(): an ascending permutation of s. */
  function SortAscending(s: seq<real>): (r: seq<real>)
    ensures Sorted(r)
    ensures multiset(r) == multiset(s)
    ensures |r| == |s|
  {
    if s == [] then []
    else
      assert s == [s[0]] + s[1..];
      var r := Insert(s[0], SortAscending(s[1..]));
      assert |multiset(r)| == |multiset(s)|;
      r
  }

  /** Each trip's duration in minutes, in units of slots. */
  function InSlots(minuteDiffs: seq<real>, slotInMinutes: real): seq<real>
    requires slotInMinutes != 0.0
  {
    seq(|minuteDiffs|, i requires 0 <= i < |minuteDiffs| => minuteDiffs[i] / slotInMinutes)
  }

  /**
   * getOrderedService after the timestamp parsing: the durations in slots,
   * one per trip, in ascending order. A zero slot length divides by zero as
   * soon as there is a trip.
   */
  method GetOrderedService(minuteDiffs: seq<real>, slotInMinutes: real) returns (r: Result<seq<real>>)
    ensures r.Err? <==> slotInMinutes == 0.0 && minuteDiffs != []
    ensures r.Err? ==> r.error == ZeroDivisionError
    ensures r.Ok? ==> |r.value| == |minuteDiffs|
    ensures r.Ok? ==> Sorted(r.value)
    ensures r.Ok? && minuteDiffs != [] ==> multiset(r.value) == multiset(InSlots(minuteDiffs, slotInMinutes))
  {
    if minuteDiffs == [] {
      return Ok([]);
    }
    if slotInMinutes == 0.0 {
      return Err(ZeroDivisionError);
    }
    var ordServiceTime: seq<real> := [];
    var key := 0;
    while key < |minuteDiffs|
      invariant 0 <= key <= |minuteDiffs|
      invariant ordServiceTime == InSlots(minuteDiffs[..key], slotInMinutes)
    {
      ordServiceTime := ordServiceTime + [minuteDiffs[key] / slotInMinutes];
      key := key + 1;
    }
    assert minuteDiffs[..key] == minuteDiffs;
    r := Ok(SortAscending(ordServiceTime));
  }
}
