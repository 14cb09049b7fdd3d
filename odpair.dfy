/**
 * The origin-destination pair of odpair.py. For the current pricing slot
 * (u0, u1) and the upcoming window (first, last time point) it keeps the
 * cumulative starts and ends per time point -- observed ones handed in by
 * the driver, predicted ones computed from the arrival rate and the
 * empirical service-time distribution G of the pair's trips.
 */
module OdPairs {
  import opened Wrappers
  import Empirical

  /** A snapshot of every field of an OD pair, for copies and comparisons. */
  datatype OdState = OdState(
    origin: int, dest: int, slotPts: (int, int), rate: real, window: (int, int),
    ordSer: seq<real>, obStarts: map<int, real>, predStarts: map<int, real>,
    obEnds: map<int, real>, predEnds: map<int, real>)

  lemma ScaleMonotone(k: real, a: real, b: real)
    requires k >= 0.0 && a <= b
    ensures k * a <= k * b
  {
    assert k * b - k * a == k * (b - a);
  }

  /**
   * The expected number of ends by u of a Poisson stream of the given rate
   * whose service times follow the empirical distribution of s.
   */
  function ScaledIntegral(rate: real, s: seq<real>, u: real): (r: Result<real>)
    ensures r.Err? <==> s == []
    ensures r.Err? ==> r.error == IndexError
    ensures r.Ok? ==> r.value == rate * Empirical.CdfIntegral(s, u).value
    ensures r.Ok? && rate >= 0.0 ==> r.value >= 0.0
    ensures r.Ok? && u < s[0] ==> r.value == 0.0
  {
    var g := Empirical.CdfIntegral(s, u);
    if g.Err? then Err(g.error) else Ok(rate * g.value)
  }

  lemma ScaledIntegralMonotone(rate: real, s: seq<real>, a: real, b: real)
    requires s != [] && rate >= 0.0 && a <= b
    ensures ScaledIntegral(rate, s, a).value <= ScaledIntegral(rate, s, b).value
  {
    Empirical.CdfIntegralMonotone(s, a, b);
    ScaleMonotone(rate, Empirical.CdfIntegral(s, a).value, Empirical.CdfIntegral(s, b).value);
  }

  class OdPair {
    const origin: int
    const dest: int
    var slotPts: (int, int)       // the pricing slot |u0| -- slot -- |u1|
    var rate: real                // arrivals per slot in the current window
    var window: (int, int)        // first and last time point of the window
    var ordSer: seq<real>         // service times of the pair's trips, ascending
    var obStarts: map<int, real>  // cumulative starts of observed rides
    var predStarts: map<int, real>
    var obEnds: map<int, real>
    var predEnds: map<int, real>

    function State(): OdState
      reads this
    {
      OdState(origin, dest, slotPts, rate, window, ordSer, obStarts, predStarts, obEnds, predEnds)
    }

    /** odpair.__init__, odpair.py:37-47: every map starts empty. */
    constructor (origin: int, dest: int, slotPts: (int, int), rate: real, window: (int, int), ordSer: seq<real>)
      ensures State() == OdState(origin, dest, slotPts, rate, window, ordSer, map[], map[], map[], map[])
    {
      this.origin, this.dest := origin, dest;
      this.slotPts, this.rate, this.window := slotPts, rate, window;
      this.ordSer := ordSer;
      obStarts, predStarts, obEnds, predEnds := map[], map[], map[], map[];
    }

    /** A fresh object with the same fields: copy.deepcopy of an OD pair. */
    constructor Clone(other: OdPair)
      ensures State() == old(other.State())
    {
      origin, dest := other.origin, other.dest;
      slotPts, rate, window := other.slotPts, other.rate, other.window;
      ordSer := other.ordSer;
      obStarts, predStarts := other.obStarts, other.predStarts;
      obEnds, predEnds := other.obEnds, other.predEnds;
    }

    /** updateParams, odpair.py:50-62. */
    method UpdateParams(rate: real, slotPts: (int, int), window: (int, int))
      modifies this`rate, this`slotPts, this`window
      ensures this.rate == rate && this.slotPts == slotPts && this.window == window
    {
      this.rate, this.slotPts, this.window := rate, slotPts, window;
    }

    /**
     * updateObsStarts, odpair.py:88-89: the map is cleared and refilled from
     * the argument, so afterwards it is the argument and no old key remains.
     */
    method UpdateObsStarts(observedStarts: map<int, real>)
      modifies this`obStarts
      ensures obStarts == observedStarts
    {
      obStarts := map[];
      obStarts := obStarts + observedStarts;
    }

    /** updateObsEnds, odpair.py:110-111, likewise for the ends. */
    method UpdateObsEnds(observedEnds: map<int, real>)
      modifies this`obEnds
      ensures obEnds == observedEnds
    {
      obEnds := map[];
      obEnds := obEnds + observedEnds;
    }

    /**
     * futureStart, odpair.py:148: the expected starts by time point t of the
     * requests arriving after the slot at the constant rate; none by u1.
     */
    function FutureStart(t: int): (r: real)
      reads this`rate, this`slotPts
      ensures t == slotPts.1 ==> r == 0.0
      ensures rate >= 0.0 && t >= slotPts.1 ==> r >= 0.0
    {
      rate * (t - slotPts.1) as real
    }

    lemma FutureStartMonotone(t1: int, t2: int)
      requires rate >= 0.0 && t1 <= t2
      ensures FutureStart(t1) <= FutureStart(t2)
    {
      assert FutureStart(t2) - FutureStart(t1) == rate * (t2 - t1) as real;
    }

    /**
     * now, odpair.py:174: the expected requests of the current slot, the
     * rate itself for a slot of one time step.
     */
    function Now(): (r: real)
      reads this`rate, this`slotPts
      ensures slotPts.1 == slotPts.0 + 1 ==> r == rate
      ensures rate >= 0.0 && slotPts.0 <= slotPts.1 ==> r >= 0.0
    {
      rate * (slotPts.1 - slotPts.0) as real
    }

    /**
     * evalG, odpair.py:214: G(t2 - t1), the share of the pair's trips that
     * last at most t2 - t1 slots, read off the stored ascending sample.
     */
    function EvalG(t1: int, t2: int): (r: Result<real>)
      reads this`ordSer
      ensures r == Empirical.Cdf(ordSer, (t2 - t1) as real)
      ensures r.Err? <==> ordSer == []
      ensures r.Ok? ==> 0.0 <= r.value <= 1.0
    {
      Empirical.Cdf(ordSer, (t2 - t1) as real)
    }

    /** G(t2 - t1) does not decrease as t2 moves away from t1. */
    lemma EvalGMonotone(t1: int, t2: int, t3: int)
      requires ordSer != [] && t2 <= t3
      ensures EvalG(t1, t2).value <= EvalG(t1, t3).value
    {
      Empirical.CdfMonotone(ordSer, (t2 - t1) as real, (t3 - t1) as real);
    }

    /**
     * intG, odpair.py:229: the integral of G from 0 to timePt, zero below
     * the shortest service time.
     */
    function IntG(timePt: int): (r: Result<real>)
      reads this`ordSer
      ensures r == Empirical.CdfIntegral(ordSer, timePt as real)
      ensures r.Err? <==> ordSer == []
      ensures r.Ok? ==> r.value >= 0.0
      ensures r.Ok? && (timePt as real) < ordSer[0] ==> r.value == 0.0
    {
      Empirical.CdfIntegral(ordSer, timePt as real)
    }

    /**
     * futureEnds, odpair.py:159: the expected ends by timePt of the requests
     * arriving after the slot, rate times the integral of G up to
     * timePt - u1. None end before the shortest trip has had time to.
     */
    function FutureEnds(timePt: int): (r: Result<real>)
      reads this`rate, this`slotPts, this`ordSer
      ensures r == ScaledIntegral(rate, ordSer, (timePt - slotPts.1) as real)
      ensures r.Err? <==> ordSer == []
      ensures r.Ok? && rate >= 0.0 ==> r.value >= 0.0
      ensures r.Ok? && ((timePt - slotPts.1) as real) < ordSer[0] ==> r.value == 0.0
    {
      var g := IntG(timePt - slotPts.1);
      if g.Err? then Err(g.error)
      else
        var sc := ScaledIntegral(rate, ordSer, (timePt - slotPts.1) as real);
        assert sc.value == rate * g.value;
        Ok(rate * g.value)
    }

    lemma FutureEndsMonotone(t1: int, t2: int)
      requires ordSer != [] && rate >= 0.0 && t1 <= t2
      ensures FutureEnds(t1).value <= FutureEnds(t2).value
    {
      ScaledIntegralMonotone(rate, ordSer, (t1 - slotPts.1) as real, (t2 - slotPts.1) as real);
    }

    /**
     * createFutureStarts, odpair.py:120-122: predStarts is rebuilt over
     * the window's time points from futureStart.
     */
    method CreateFutureStarts()
      modifies this`predStarts
      ensures forall t :: t in predStarts <==> window.0 <= t <= window.1
      ensures forall t :: t in predStarts ==> predStarts[t] == FutureStart(t)
    {
      predStarts := map[];
      var timePt := window.0;
      while timePt <= window.1
        invariant window.0 <= timePt <= if window.0 <= window.1 then window.1 + 1 else window.0
        invariant forall t :: t in predStarts <==> window.0 <= t < timePt
        invariant forall t :: t in predStarts ==> predStarts[t] == FutureStart(t)
      {
        predStarts := predStarts[timePt := FutureStart(timePt)];
        timePt := timePt + 1;
      }
    }

    /** With a non-negative rate the predicted starts grow along the window. */
    lemma PredStartsMonotone(t1: int, t2: int)
      requires rate >= 0.0 && t1 <= t2
      requires t1 in predStarts && t2 in predStarts
      requires forall t :: t in predStarts ==> predStarts[t] == FutureStart(t)
      ensures predStarts[t1] <= predStarts[t2]
    {
      FutureStartMonotone(t1, t2);
    }

    /**
     * createFutureEnds, odpair.py:132-134: predEnds is rebuilt over the
     * window's time points from futureEnds. Without a service-time sample
     * the first point raises IndexError and the map stays cleared.
     */
    method CreateFutureEnds() returns (r: Outcome)
      modifies this`predEnds
      ensures r.Raised? <==> ordSer == [] && window.0 <= window.1
      ensures r.Raised? ==> r.error == IndexError && predEnds == map[]
      ensures r.Done? ==> forall t :: t in predEnds <==> window.0 <= t <= window.1
      ensures r.Done? ==> forall t :: t in predEnds ==> FutureEnds(t) == Ok(predEnds[t])
    {
      predEnds := map[];
      var timePt := window.0;
      while timePt <= window.1
        invariant window.0 <= timePt <= if window.0 <= window.1 then window.1 + 1 else window.0
        invariant window.0 < timePt ==> ordSer != []
        invariant forall t :: t in predEnds <==> window.0 <= t < timePt
        invariant forall t :: t in predEnds ==> FutureEnds(t) == Ok(predEnds[t])
      {
        var e := FutureEnds(timePt);
        if e.Err? {
          return Raised(e.error);
        }
        predEnds := predEnds[timePt := e.value];
        timePt := timePt + 1;
      }
      return Done;
    }

    /**
     * The table getProbEnd builds: for every time point tau of the window
     * the list [G(tau - first), G(tau - (first + 1)), ..., G(0)], the chance
     * that a ride leaving at each departure point up to tau has ended by tau.
     */
    ghost predicate IsProbEnd(glists: map<int, seq<real>>)
      reads this`ordSer, this`window
    {
      (forall t :: t in glists <==> window.0 <= t <= window.1)
      && forall t :: t in glists ==>
           |glists[t]| == t - window.0 + 1
           && forall j :: 0 <= j < |glists[t]| ==> EvalG(window.0 + j, t) == Ok(glists[t][j])
    }

    /** Every entry is a probability, and each list ends with G(0). */
    lemma ProbEndEntries(glists: map<int, seq<real>>, t: int)
      requires IsProbEnd(glists) && t in glists
      ensures forall j :: 0 <= j < |glists[t]| ==> 0.0 <= glists[t][j] <= 1.0
      ensures Empirical.Cdf(ordSer, 0.0) == Ok(glists[t][|glists[t]| - 1])
    {
      var j := |glists[t]| - 1;
      assert EvalG(window.0 + j, t) == Ok(glists[t][j]);
      assert (t - (window.0 + j)) as real == 0.0;
      forall i | 0 <= i < |glists[t]|
        ensures 0.0 <= glists[t][i] <= 1.0
      {
        assert EvalG(window.0 + i, t) == Ok(glists[t][i]);
      }
    }

    /**
     * getProbEnd, odpair.py:188-197. The final transposition into
     * one-column arrays only changes the container. Without a sample the
     * first evalG raises IndexError.
     */
    method GetProbEnd() returns (r: Result<map<int, seq<real>>>)
      ensures r.Err? <==> ordSer == [] && window.0 <= window.1
      ensures r.Err? ==> r.error == IndexError
      ensures r.Ok? ==> IsProbEnd(r.value)
    {
      var glists: map<int, seq<real>> := map[];
      var timePt := window.0;
      while timePt <= window.1
        invariant window.0 <= timePt <= if window.0 <= window.1 then window.1 + 1 else window.0
        invariant window.0 < timePt ==> ordSer != []
        invariant forall t :: t in glists <==> window.0 <= t < timePt
        invariant forall t :: t in glists ==>
                    |glists[t]| == t - window.0 + 1
                    && forall j :: 0 <= j < |glists[t]| ==> EvalG(window.0 + j, t) == Ok(glists[t][j])
      {
        var list: seq<real> := [];
        var prevTimePt := window.0;
        while prevTimePt <= timePt
          invariant window.0 <= prevTimePt <= timePt + 1
          invariant window.0 < prevTimePt ==> ordSer != []
          invariant |list| == prevTimePt - window.0
          invariant forall j :: 0 <= j < |list| ==> EvalG(window.0 + j, timePt) == Ok(list[j])
        {
          var g := EvalG(prevTimePt, timePt);
          if g.Err? {
            return Err(g.error);
          }
          list := list + [g.value];
          prevTimePt := prevTimePt + 1;
        }
        glists := glists[timePt := list];
        timePt := timePt + 1;
      }
      return Ok(glists);
    }
  }
}
