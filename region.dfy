/**
 * The region of region.py: for the current slot and window it gathers the
 * OD pairs leaving it and entering it, sums their cumulative starts and
 * ends per time point into region totals, and derives the load process
 * (starts minus ends) and the demand of the current slot.
 *
 * The driver hands a region all OD pairs in a dictionary keyed by
 * (origin, destination), built in that key order (network.py:152-155); it
 * is modelled as the sequence of its values, whose key is each pair's own
 * origin and destination.
 */
module Regions {
  import opened Wrappers
  import opened OdPairs

  /** The four per-time-point maps of an OD pair. */
  datatype Part = ObStarts | PredStarts | ObEnds | PredEnds

  function PartOf(od: OdPair, part: Part): map<int, real>
    reads od
  {
    match part
    case ObStarts => od.obStarts
    case PredStarts => od.predStarts
    case ObEnds => od.obEnds
    case PredEnds => od.predEnds
  }

  function Parts(ods: seq<OdPair>, part: Part): (ms: seq<map<int, real>>)
    reads ods
    ensures |ms| == |ods| && forall i :: 0 <= i < |ods| ==> ms[i] == PartOf(ods[i], part)
  {
    seq(|ods|, i reads ods requires 0 <= i < |ods| => PartOf(ods[i], part))
  }

  /** The value a map contributes at t: a missing key contributes nothing. */
  function ValueAt(m: map<int, real>, t: int): real {
    if t in m then m[t] else 0.0
  }

  /** The total at t over a sequence of maps, summed in order. */
  function SumAt(ms: seq<map<int, real>>, t: int): real {
    if ms == [] then 0.0 else SumAt(ms[..|ms| - 1], t) + ValueAt(ms[|ms| - 1], t)
  }

  /** Every key of every map is a time point of the window. */
  predicate KeysInWindow(ms: seq<map<int, real>>, window: (int, int)) {
    forall i, k :: 0 <= i < |ms| && k in ms[i] ==> window.0 <= k <= window.1
  }

  /**
   * The zero-initialise-then-accumulate loop that region.py writes out four
   * times (lines 114-121, 142-149, 158-165, 175-181): a map over the window's
   * time points, to which every key of every OD map adds its value. A key
   * outside the window is looked up in vain and raises KeyError. The model
   * checks an OD map's keys before adding them and then walks the window's
   * points, which adds the same values at the same points.
   */
  method Accumulate(ms: seq<map<int, real>>, window: (int, int)) returns (r: Outcome, acc: map<int, real>)
    ensures r.Done? <==> KeysInWindow(ms, window)
    ensures r.Raised? ==> r.error == KeyError
    ensures r.Done? ==> forall t :: t in acc <==> window.0 <= t <= window.1
    ensures r.Done? ==> forall t :: t in acc ==> acc[t] == SumAt(ms, t)
  {
    acc := map[];
    var timePt := window.0;
    while timePt <= window.1
      invariant window.0 <= timePt <= if window.0 <= window.1 then window.1 + 1 else window.0
      invariant forall t :: t in acc <==> window.0 <= t < timePt
      invariant forall t :: t in acc ==> acc[t] == 0.0
    {
      acc := acc[timePt := 0.0];
      timePt := timePt + 1;
    }
    var i := 0;
    while i < |ms|
      invariant 0 <= i <= |ms|
      invariant KeysInWindow(ms[..i], window)
      invariant forall t :: t in acc <==> window.0 <= t <= window.1
      invariant forall t :: t in acc ==> acc[t] == SumAt(ms[..i], t)
    {
      var m := ms[i];
      if !(forall k :: k in m ==> window.0 <= k <= window.1) {
        return Raised(KeyError), acc;
      }
      var timePt := window.0;
      while timePt <= window.1
        invariant window.0 <= timePt <= if window.0 <= window.1 then window.1 + 1 else window.0
        invariant forall t :: t in acc <==> window.0 <= t <= window.1
        invariant forall t :: t in acc ==>
                    acc[t] == SumAt(ms[..i], t) + (if t < timePt then ValueAt(m, t) else 0.0)
      {
        if timePt in m {
          acc := acc[timePt := acc[timePt] + m[timePt]];
        }
        timePt := timePt + 1;
      }
      assert ms[..i + 1][..i] == ms[..i];
      i := i + 1;
    }
    assert ms[..|ms|] == ms;
    return Done, acc;
  }

  /** A total over maps that each grow along the window grows too. */
  lemma {:induction false} SumAtMonotone(ms: seq<map<int, real>>, t1: int, t2: int)
    requires forall i :: 0 <= i < |ms| ==> t1 in ms[i] && t2 in ms[i] && ms[i][t1] <= ms[i][t2]
    ensures SumAt(ms, t1) <= SumAt(ms, t2)
  {
    if ms != [] {
      SumAtMonotone(ms[..|ms| - 1], t1, t2);
    }
  }

  /** A total of non-negative maps is non-negative. */
  lemma {:induction false} SumAtNonneg(ms: seq<map<int, real>>, t: int)
    requires forall i, k :: 0 <= i < |ms| && k in ms[i] ==> ms[i][k] >= 0.0
    ensures SumAt(ms, t) >= 0.0
  {
    if ms != [] {
      SumAtNonneg(ms[..|ms| - 1], t);
    }
  }

  /** The pairs of ods leaving region, in order: `self.region == odp[0]`. */
  function Outgoing(ods: seq<OdPair>, region: int): (r: seq<OdPair>)
    ensures forall i :: 0 <= i < |r| ==> r[i] in ods && r[i].origin == region
    ensures forall i :: 0 <= i < |ods| && ods[i].origin == region ==> ods[i] in r
    ensures |r| <= |ods|
  {
    if ods == [] then []
    else Outgoing(ods[..|ods| - 1], region) + (if ods[|ods| - 1].origin == region then [ods[|ods| - 1]] else [])
  }

  /** The pairs of ods entering region, in order: `self.region == odp[1]`. */
  function Incoming(ods: seq<OdPair>, region: int): (r: seq<OdPair>)
    ensures forall i :: 0 <= i < |r| ==> r[i] in ods && r[i].dest == region
    ensures forall i :: 0 <= i < |ods| && ods[i].dest == region ==> ods[i] in r
    ensures |r| <= |ods|
  {
    if ods == [] then []
    else Incoming(ods[..|ods| - 1], region) + (if ods[|ods| - 1].dest == region then [ods[|ods| - 1]] else [])
  }

  /** The now() demand of a sequence of pairs, summed in order. */
  function SumNow(ods: seq<OdPair>): real
    reads ods
  {
    if ods == [] then 0.0 else SumNow(ods[..|ods| - 1]) + ods[|ods| - 1].Now()
  }

  /** With non-negative rates and one-step slots the demand of now is the sum of the rates. */
  lemma {:induction false} SumNowIsRates(ods: seq<OdPair>, slotPts: (int, int))
    requires slotPts.1 == slotPts.0 + 1
    requires forall i :: 0 <= i < |ods| ==> ods[i].slotPts == slotPts && ods[i].rate >= 0.0
    ensures SumNow(ods) >= 0.0
    ensures SumNow(ods) == SumRates(ods)
  {
    if ods != [] {
      SumNowIsRates(ods[..|ods| - 1], slotPts);
    }
  }

  function SumRates(ods: seq<OdPair>): real
    reads ods
  {
    if ods == [] then 0.0 else SumRates(ods[..|ods| - 1]) + ods[|ods| - 1].rate
  }

  /** No two pairs share a dictionary key (origin, destination). */
  predicate DistinctKeys(ods: seq<OdPair>) {
    forall i, j :: 0 <= i < j < |ods| ==> (ods[i].origin, ods[i].dest) != (ods[j].origin, ods[j].dest)
  }

  lemma {:induction false} IncomingDistinct(ods: seq<OdPair>, region: int)
    requires DistinctKeys(ods)
    ensures DistinctKeys(Incoming(ods, region))
  {
    if ods != [] {
      var init := ods[..|ods| - 1];
      IncomingDistinct(init, region);
      var last := ods[|ods| - 1];
      var r := Incoming(init, region);
      forall i | 0 <= i < |r|
        ensures (r[i].origin, r[i].dest) != (last.origin, last.dest)
      {
        var k :| 0 <= k < |init| && init[k] == r[i];
        assert ods[k] == r[i];
      }
    }
  }

  /** The index of the last pair from region to itself, if any. */
  function SelfLoop(ods: seq<OdPair>, region: int): (r: Option<nat>)
    ensures r.Some? ==> r.value < |ods| && ods[r.value].origin == region && ods[r.value].dest == region
    ensures r.Some? ==> forall j :: r.value < j < |ods| ==> !(ods[j].origin == region && ods[j].dest == region)
    ensures r.None? ==> forall j :: 0 <= j < |ods| ==> !(ods[j].origin == region && ods[j].dest == region)
  {
    if ods == [] then None
    else if ods[|ods| - 1].origin == region && ods[|ods| - 1].dest == region then Some(|ods| - 1)
    else SelfLoop(ods[..|ods| - 1], region)
  }

  /** The four maps loadProcess returns beside the load. */
  datatype LoadMaps = LoadMaps(
    load: map<int, real>, predStarts: map<int, real>, obStarts: map<int, real>,
    predEnds: map<int, real>, obEnds: map<int, real>)

  /** The deep copy region.py:54 takes of the network's pairs. */
  method CloneAll(ods: seq<OdPair>) returns (cs: seq<OdPair>)
    ensures |cs| == |ods|
    ensures forall i :: 0 <= i < |ods| ==> fresh(cs[i]) && cs[i].State() == ods[i].State()
    ensures DistinctKeys(ods) ==> DistinctKeys(cs)
  {
    cs := [];
    var i := 0;
    while i < |ods|
      invariant 0 <= i <= |ods| && |cs| == i
      invariant forall j :: 0 <= j < i ==> fresh(cs[j]) && cs[j].State() == ods[j].State()
    {
      var c := new OdPair.Clone(ods[i]);
      cs := cs + [c];
      i := i + 1;
    }
  }

  class Region {
    const region: int
    var slotPts: (int, int)
    var window: (int, int)
    var obStarts: map<int, real>
    var predStarts: map<int, real>
    var obEnds: map<int, real>
    var predEnds: map<int, real>
    var inOD: seq<OdPair>   // the pairs ending in the region
    var outOD: seq<OdPair>  // the pairs starting in the region
    var nowSt: real
    var nowE: real
    var glists: map<int, seq<real>>
    var load: map<int, real>
    ghost var copies: seq<OdPair>  // the region's own copy of every pair it was given

    /**
     * region.__init__, region.py:40-54: the OD pairs are deep-copied before
     * they are sorted into inOD and outOD, so the region shares no object
     * with its caller and nothing it does reaches the caller's pairs.
     */
    constructor (region: int, slotPts: (int, int), window: (int, int), odpairs: seq<OdPair>)
      ensures this.region == region && this.slotPts == slotPts && this.window == window
      ensures obStarts == map[] && predStarts == map[] && obEnds == map[] && predEnds == map[]
      ensures nowSt == 0.0 && nowE == 0.0 && glists == map[] && load == map[]
      ensures |copies| == |odpairs|
      ensures forall i :: 0 <= i < |odpairs| ==> fresh(copies[i]) && copies[i].State() == odpairs[i].State()
      ensures outOD == Outgoing(copies, region) && inOD == Incoming(copies, region)
      ensures DistinctKeys(odpairs) ==> DistinctKeys(inOD)
    {
      this.region, this.slotPts, this.window := region, slotPts, window;
      obStarts, predStarts, obEnds, predEnds := map[], map[], map[], map[];
      inOD, outOD := [], [];
      nowSt, nowE, glists, load := 0.0, 0.0, map[], map[];
      var cs := CloneAll(odpairs);
      copies := cs;
      new;
      InitializeODs(cs);
      if DistinctKeys(odpairs) {
        IncomingDistinct(cs, region);
      }
    }

    /** updateParams, region.py:57-67. */
    method UpdateParams(slotPts: (int, int), window: (int, int))
      modifies this`slotPts, this`window
      ensures this.slotPts == slotPts && this.window == window
    {
      this.slotPts, this.window := slotPts, window;
    }

    /**
     * initializeODs, region.py:70-88: outOD keeps the pairs whose origin is
     * the region and inOD those whose destination is, both in dictionary
     * order; the pair from the region to itself lands in both.
     */
    method InitializeODs(odpairs: seq<OdPair>)
      modifies this`inOD, this`outOD
      ensures outOD == Outgoing(odpairs, region) && inOD == Incoming(odpairs, region)
      ensures forall od :: od in odpairs && od.origin == region && od.dest == region ==> od in outOD && od in inOD
    {
      inOD, outOD := [], [];
      var i := 0;
      while i < |odpairs|
        invariant 0 <= i <= |odpairs|
        invariant outOD == Outgoing(odpairs[..i], region) && inOD == []
      {
        if region == odpairs[i].origin {
          outOD := outOD + [odpairs[i]];
        }
        assert odpairs[..i + 1][..i] == odpairs[..i];
        i := i + 1;
      }
      assert odpairs[..|odpairs|] == odpairs && odpairs[..0] == [];
      i := 0;
      while i < |odpairs|
        invariant 0 <= i <= |odpairs|
        invariant outOD == Outgoing(odpairs, region)
        invariant inOD == Incoming(odpairs[..i], region)
      {
        if region == odpairs[i].dest {
          inOD := inOD + [odpairs[i]];
        }
        assert odpairs[..i + 1][..i] == odpairs[..i];
        i := i + 1;
      }
      assert odpairs[..|odpairs|] == odpairs;
    }

    /**
     * updateObsStarts, region.py:114-121: obStarts over the window is the
     * sum of the observed starts of the pairs leaving the region, 0 where
     * none has any; an OD key outside the window raises KeyError.
     */
    method UpdateObsStarts() returns (r: Outcome)
      modifies this`obStarts
      ensures r.Done? <==> KeysInWindow(Parts(outOD, ObStarts), window)
      ensures r.Raised? ==> r.error == KeyError
      ensures r.Done? ==> forall t :: t in obStarts <==> window.0 <= t <= window.1
      ensures r.Done? ==> forall t :: t in obStarts ==> obStarts[t] == SumAt(Parts(outOD, ObStarts), t)
    {
      r, obStarts := Accumulate(Parts(outOD, ObStarts), window);
    }

    /** updateObsEnds, region.py:142-149: the same over the ends of the pairs entering it. */
    method UpdateObsEnds() returns (r: Outcome)
      modifies this`obEnds
      ensures r.Done? <==> KeysInWindow(Parts(inOD, ObEnds), window)
      ensures r.Raised? ==> r.error == KeyError
      ensures r.Done? ==> forall t :: t in obEnds <==> window.0 <= t <= window.1
      ensures r.Done? ==> forall t :: t in obEnds ==> obEnds[t] == SumAt(Parts(inOD, ObEnds), t)
    {
      r, obEnds := Accumulate(Parts(inOD, ObEnds), window);
    }

    /** createFutureStarts, region.py:158-165: the predicted starts of the pairs leaving it. */
    method CreateFutureStarts() returns (r: Outcome)
      modifies this`predStarts
      ensures r.Done? <==> KeysInWindow(Parts(outOD, PredStarts), window)
      ensures r.Raised? ==> r.error == KeyError
      ensures r.Done? ==> forall t :: t in predStarts <==> window.0 <= t <= window.1
      ensures r.Done? ==> forall t :: t in predStarts ==> predStarts[t] == SumAt(Parts(outOD, PredStarts), t)
    {
      r, predStarts := Accumulate(Parts(outOD, PredStarts), window);
    }

    /** createFutureEnds, region.py:175-181: the predicted ends of the pairs entering it. */
    method CreateFutureEnds() returns (r: Outcome)
      modifies this`predEnds
      ensures r.Done? <==> KeysInWindow(Parts(inOD, PredEnds), window)
      ensures r.Raised? ==> r.error == KeyError
      ensures r.Done? ==> forall t :: t in predEnds <==> window.0 <= t <= window.1
      ensures r.Done? ==> forall t :: t in predEnds ==> predEnds[t] == SumAt(Parts(inOD, PredEnds), t)
    {
      r, predEnds := Accumulate(Parts(inOD, PredEnds), window);
    }

    /**
     * loadProcess, region.py:191-194: over the window, predicted plus
     * observed starts minus predicted and observed ends; a map missing a
     * window point raises KeyError. The constituent maps come back as they
     * are.
     */
    method LoadProcess() returns (r: Result<LoadMaps>)
      modifies this`load
      ensures r.Ok? <==> forall t :: window.0 <= t <= window.1 ==>
                t in predStarts && t in obStarts && t in predEnds && t in obEnds
      ensures r.Err? ==> r.error == KeyError
      ensures r.Ok? ==> r.value == LoadMaps(load, predStarts, obStarts, predEnds, obEnds)
      ensures r.Ok? ==> forall t :: t in load <==> window.0 <= t <= window.1
      ensures r.Ok? ==> forall t :: t in load ==>
                load[t] == predStarts[t] + obStarts[t] - predEnds[t] - obEnds[t]
    {
      load := map[];
      var timePt := window.0;
      while timePt <= window.1
        invariant window.0 <= timePt <= if window.0 <= window.1 then window.1 + 1 else window.0
        invariant forall t :: window.0 <= t < timePt ==>
                    t in predStarts && t in obStarts && t in predEnds && t in obEnds
        invariant forall t :: t in load <==> window.0 <= t < timePt
        invariant forall t :: t in load ==>
                    load[t] == predStarts[t] + obStarts[t] - predEnds[t] - obEnds[t]
      {
        if !(timePt in predStarts && timePt in obStarts && timePt in predEnds && timePt in obEnds) {
          return Err(KeyError);
        }
        load := load[timePt := predStarts[timePt] + obStarts[timePt] - predEnds[timePt] - obEnds[timePt]];
        timePt := timePt + 1;
      }
      return Ok(LoadMaps(load, predStarts, obStarts, predEnds, obEnds));
    }

    /** nowStart, region.py:204-206: the now() demand summed over the pairs leaving the region. */
    method NowStart()
      modifies this`nowSt
      ensures nowSt == SumNow(outOD)
    {
      nowSt := 0.0;
      var i := 0;
      while i < |outOD|
        invariant 0 <= i <= |outOD|
        invariant nowSt == SumNow(outOD[..i])
      {
        nowSt := nowSt + outOD[i].Now();
        assert outOD[..i + 1][..i] == outOD[..i];
        i := i + 1;
      }
      assert outOD[..|outOD|] == outOD;
    }

    /**
     * nowEnd, region.py:219-223: only the pair from the region to itself
     * counts; nowE is its now() demand and glists its getProbEnd table.
     * Without such a pair nowE is 0 and glists keeps its old value; an
     * empty sample of that pair raises IndexError after nowE is set.
     */
    method NowEnd() returns (r: Outcome)
      requires DistinctKeys(inOD)
      modifies this`nowE, this`glists
      ensures SelfLoop(inOD, region).None? ==> r.Done? && nowE == 0.0 && glists == old(glists)
      ensures SelfLoop(inOD, region).Some? ==>
                var od := inOD[SelfLoop(inOD, region).value];
                nowE == od.Now()
                && (r.Raised? <==> od.ordSer == [] && od.window.0 <= od.window.1)
                && (r.Raised? ==> r.error == IndexError)
                && (r.Done? ==> od.IsProbEnd(glists))
      ensures r.Raised? ==> glists == old(glists)
    {
      nowE := 0.0;
      var i := 0;
      while i < |inOD|
        invariant 0 <= i <= |inOD|
        invariant SelfLoop(inOD[..i], region).None? ==> nowE == 0.0 && glists == old(glists)
        invariant SelfLoop(inOD[..i], region).Some? ==>
                    var od := inOD[SelfLoop(inOD[..i], region).value];
                    nowE == od.Now() && od.IsProbEnd(glists)
                    && !(od.ordSer == [] && od.window.0 <= od.window.1)
      {
        assert inOD[..i + 1][..i] == inOD[..i];
        var od := inOD[i];
        if region == od.origin && region == od.dest {
          nowE := od.Now();
          var g := od.GetProbEnd();
          if g.Err? {
            forall j | 0 <= j < i
              ensures !(inOD[..i][j].origin == region && inOD[..i][j].dest == region)
            {
              assert inOD[..i][j] == inOD[j];
            }
            assert SelfLoop(inOD, region) == Some(i);
            return Raised(g.error);
          }
          glists := g.value;
        }
        i := i + 1;
      }
      assert inOD[..|inOD|] == inOD;
      r := Done;
    }
  }
}
