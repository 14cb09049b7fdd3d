/**
 * The bookkeeping of the driver in network.py: the pricing slots and their
 * windows, the cumulative starts and ends of observed rides per OD pair and
 * time point (aged at every slot, cut to the window, and bumped by every
 * ride that is rescheduled), the repair of the solver's probability
 * vectors, and the savings and lost revenue computed from them.
 *
 * Counts of observed rides are integers; probabilities, savings and revenue
 * are reals. np.log is a parameter, and the departure point that
 * np.random.choice draws is an argument.
 */
module Network {
  import opened Wrappers

  // ---------------------------------------------------------------------
  // Slots and windows, network.py:76-82

  /**
   * For every time point t from firstTimePt up to lastTimePt, exclusive,
   * with lastTimePt = maxTimePt - windowLengthSlots, the slot (t, t + 1)
   * and the window (t + 1, t + 1 + windowLengthSlots) that follows it: the
   * window opens where its slot closes and ends by maxTimePt.
   */
  method SlotsAndWindows(firstTimePt: int, maxTimePt: int, windowLengthSlots: int)
    returns (listofSlots: seq<(int, int)>, listofWindows: seq<(int, int)>)
    ensures var lastTimePt := maxTimePt - windowLengthSlots;
            |listofSlots| == |listofWindows| == if firstTimePt < lastTimePt then lastTimePt - firstTimePt else 0
    ensures forall k :: 0 <= k < |listofSlots| ==>
              listofSlots[k].0 == firstTimePt + k && listofSlots[k].1 == listofSlots[k].0 + 1
    ensures forall k :: 0 <= k < |listofWindows| ==>
              listofWindows[k].0 == listofSlots[k].1
              && listofWindows[k].1 - listofWindows[k].0 == windowLengthSlots
              && listofWindows[k].1 <= maxTimePt
  {
    var lastTimePt := maxTimePt - windowLengthSlots;
    listofSlots, listofWindows := [], [];
    var timePt := firstTimePt;
    while timePt < lastTimePt
      invariant firstTimePt <= timePt <= if firstTimePt < lastTimePt then lastTimePt else firstTimePt
      invariant |listofSlots| == timePt - firstTimePt
      invariant forall k :: 0 <= k < |listofSlots| ==> listofSlots[k] == (firstTimePt + k, firstTimePt + k + 1)
    {
      listofSlots := listofSlots + [(timePt, timePt + 1)];
      timePt := timePt + 1;
    }
    timePt := firstTimePt;
    while timePt < lastTimePt
      invariant firstTimePt <= timePt <= if firstTimePt < lastTimePt then lastTimePt else firstTimePt
      invariant |listofWindows| == timePt - firstTimePt
      invariant forall k :: 0 <= k < |listofWindows| ==>
                  listofWindows[k] == (firstTimePt + k + 1, firstTimePt + k + 1 + windowLengthSlots)
    {
      listofWindows := listofWindows + [(timePt + 1, timePt + 1 + windowLengthSlots)];
      timePt := timePt + 1;
    }
  }

  // ---------------------------------------------------------------------
  // Cumulative counts per time point

  /** Counts that never decrease along the time points. */
  predicate NonDecreasing(m: map<int, int>) {
    forall k1, k2 :: k1 in m && k2 in m && k1 <= k2 ==> m[k1] <= m[k2]
  }

  /**
   * The aging of network.py:126-128 for the slot (t, t + 1): every point
   * from t + 1 to maxTimePt loses the count at t, the others keep theirs.
   */
  function Aged(m: map<int, int>, t: int, maxTimePt: int): (r: map<int, int>)
    requires t in m
    ensures t in r && r[t] == m[t]
  {
    map k | k in m :: if t + 1 <= k <= maxTimePt then m[k] - m[t] else m[k]
  }

  /** The aging loop for one OD pair's map. */
  method AgeMap(m: map<int, int>, t: int, maxTimePt: int) returns (r: map<int, int>)
    requires t in m && forall k :: t + 1 <= k <= maxTimePt ==> k in m
    ensures r == Aged(m, t, maxTimePt)
  {
    r := m;
    var timePt := t + 1;
    while timePt <= maxTimePt
      invariant t + 1 <= timePt <= if t + 1 <= maxTimePt then maxTimePt + 1 else t + 1
      invariant r.Keys == m.Keys
      invariant forall k :: k in r ==> r[k] == if t + 1 <= k < timePt then m[k] - m[t] else m[k]
    {
      r := r[timePt := r[timePt] - r[t]];
      timePt := timePt + 1;
    }
  }

  /**
   * After aging, the counts from t + 1 on are the rides counted after t:
   * they still grow, and none is negative, when the counts grew before.
   */
  lemma AgedCountsSince(m: map<int, int>, t: int, maxTimePt: int)
    requires t in m && NonDecreasing(m)
    ensures var a := Aged(m, t, maxTimePt);
            a.Keys == m.Keys
            && (forall k :: k in m && !(t + 1 <= k <= maxTimePt) ==> a[k] == m[k])
            && (forall k :: k in m && t + 1 <= k <= maxTimePt ==> a[k] >= 0)
            && (forall k1, k2 :: k1 in m && k2 in m && t + 1 <= k1 <= k2 <= maxTimePt ==> a[k1] <= a[k2])
  {
  }

  /**
   * Aging a second time for the same slot subtracts the count at t again,
   * so it changes nothing only when that count is 0 or no point lies in
   * [t + 1, maxTimePt].
   */
  lemma AgedTwice(m: map<int, int>, t: int, maxTimePt: int)
    requires t in m
    ensures Aged(Aged(m, t, maxTimePt), t, maxTimePt) == Aged(m, t, maxTimePt)
            <==> (m[t] == 0 || forall k :: k in m ==> !(t + 1 <= k <= maxTimePt))
  {
    var a := Aged(m, t, maxTimePt);
    assert a[t] == m[t];
    if exists k :: k in m && t + 1 <= k <= maxTimePt {
      var k :| k in m && t + 1 <= k <= maxTimePt;
      assert Aged(a, t, maxTimePt)[k] == a[k] - m[t];
    }
  }

  /**
   * The suffix increment of network.py:189-192: one more ride counted at
   * every point from `from` to maxTimePt.
   */
  function Bumped(m: map<int, int>, from: int, maxTimePt: int): (r: map<int, int>)
    ensures r.Keys == m.Keys
    ensures forall k :: k in m ==> m[k] <= r[k] <= m[k] + 1
    ensures forall k :: k in m && k < from ==> r[k] == m[k]
  {
    map k | k in m :: if from <= k <= maxTimePt then m[k] + 1 else m[k]
  }

  method AddSuffix(m: map<int, int>, from: int, maxTimePt: int) returns (r: map<int, int>)
    requires forall k :: from <= k <= maxTimePt ==> k in m
    ensures r == Bumped(m, from, maxTimePt)
  {
    r := m;
    var timePt := from;
    while timePt <= maxTimePt
      invariant from <= timePt <= if from <= maxTimePt then maxTimePt + 1 else from
      invariant r.Keys == m.Keys
      invariant forall k :: k in r ==> r[k] == if from <= k < timePt then m[k] + 1 else m[k]
    {
      r := r[timePt := r[timePt] + 1];
      timePt := timePt + 1;
    }
  }

  /** Up to maxTimePt, one more ride keeps the counts cumulative. */
  lemma BumpedNonDecreasing(m: map<int, int>, from: int, maxTimePt: int)
    requires NonDecreasing(m) && forall k :: k in m ==> k <= maxTimePt
    ensures NonDecreasing(Bumped(m, from, maxTimePt))
    ensures forall k :: k in m ==> Bumped(m, from, maxTimePt)[k] - m[k] == if from <= k then 1 else 0
  {
  }

  /** The window's part of a map, network.py:136-137. */
  function Restrict(m: map<int, int>, window: (int, int)): (r: map<int, int>)
    requires forall k :: window.0 <= k <= window.1 ==> k in m
    ensures forall k :: k in r <==> window.0 <= k <= window.1
    ensures forall k :: k in r ==> r[k] == m[k]
  {
    map k | window.0 <= k <= window.1 :: m[k]
  }

  /** `{key: m[key] for key in keysToExtract}`: KeyError at a window point the map lacks. */
  method ExtractWindow(m: map<int, int>, window: (int, int)) returns (r: Result<map<int, int>>)
    ensures r.Ok? <==> forall k :: window.0 <= k <= window.1 ==> k in m
    ensures r.Err? ==> r.error == KeyError
    ensures r.Ok? ==> r.value == Restrict(m, window)
  {
    var win: map<int, int> := map[];
    var key := window.0;
    while key <= window.1
      invariant window.0 <= key <= if window.0 <= window.1 then window.1 + 1 else window.0
      invariant forall k :: window.0 <= k < key ==> k in m
      invariant forall k :: k in win <==> window.0 <= k < key
      invariant forall k :: k in win ==> win[k] == m[k]
    {
      if key !in m {
        return Err(KeyError);
      }
      win := win[key := m[key]];
      key := key + 1;
    }
    return Ok(win);
  }

  /** An OD pair of regions numbered 1..numRegions, network.py:112-113. */
  predicate IsPair(p: (int, int), numRegions: int) {
    1 <= p.0 <= numRegions && 1 <= p.1 <= numRegions
  }

  /** A map holding a count at exactly the points first..maxTimePt. */
  ghost predicate OverHorizon(m: map<int, int>, firstTimePt: int, maxTimePt: int) {
    forall k :: k in m <==> firstTimePt <= k <= maxTimePt
  }

  /**
   * The window's part of the map of every pair of a ledger, pair by pair
   * (network.py:134-137). The extraction for the starts and the ends of a
   * pair alternate in the source; as both fail exactly when the window
   * leaves the horizon, and nothing is changed, extracting all starts
   * before all ends gives the same result and the same error.
   */
  method ExtractAll(mm: map<(int, int), map<int, int>>, numRegions: int, firstTimePt: int, maxTimePt: int, window: (int, int))
    returns (r: Result<map<(int, int), map<int, int>>>)
    requires forall p :: p in mm <==> IsPair(p, numRegions)
    requires forall p :: p in mm ==> OverHorizon(mm[p], firstTimePt, maxTimePt)
    ensures r.Err? <==> 1 <= numRegions && window.0 <= window.1 && (window.0 < firstTimePt || maxTimePt < window.1)
    ensures r.Err? ==> r.error == KeyError
    ensures r.Ok? ==> forall p :: p in r.value <==> IsPair(p, numRegions)
    ensures r.Ok? ==> forall p :: p in r.value ==>
              (forall k :: window.0 <= k <= window.1 ==> k in mm[p]) && r.value[p] == Restrict(mm[p], window)
  {
    var win: map<(int, int), map<int, int>> := map[];
    var origin := 1;
    while origin <= numRegions
      invariant 1 <= origin <= if 1 <= numRegions then numRegions + 1 else 1
      invariant 1 < origin && window.0 <= window.1 ==> firstTimePt <= window.0 && window.1 <= maxTimePt
      invariant forall p :: p in win <==> IsPair(p, numRegions) && p.0 < origin
      invariant forall p :: p in win ==> win[p] == Restrict(mm[p], window)
    {
      var dest := 1;
      while dest <= numRegions
        invariant 1 <= dest <= numRegions + 1
        invariant (1 < origin || 1 < dest) && window.0 <= window.1 ==> firstTimePt <= window.0 && window.1 <= maxTimePt
        invariant forall p :: p in win <==> IsPair(p, numRegions) && (p.0 < origin || (p.0 == origin && p.1 < dest))
        invariant forall p :: p in win ==> win[p] == Restrict(mm[p], window)
      {
        var p := (origin, dest);
        var w := ExtractWindow(mm[p], window);
        if w.Err? {
          return Err(w.error);
        }
        assert window.0 <= window.1 ==> window.0 in mm[p] && window.1 in mm[p];
        win := win[p := w.value];
        dest := dest + 1;
      }
      origin := origin + 1;
    }
    return Ok(win);
  }

  /**
   * The aging loop of network.py:124-128 over every pair of a ledger map.
   * The source ages the starts and the ends of a pair at the same points
   * in one loop; the two maps do not depend on each other, so aging all
   * starts and then all ends gives the same maps.
   */
  method AgeAll(mm: map<(int, int), map<int, int>>, numRegions: int, firstTimePt: int, maxTimePt: int, t: int)
    returns (aged: map<(int, int), map<int, int>>)
    requires forall p :: p in mm <==> IsPair(p, numRegions)
    requires forall p :: p in mm ==> OverHorizon(mm[p], firstTimePt, maxTimePt)
    requires firstTimePt <= t < maxTimePt
    ensures forall p :: p in mm ==> t in mm[p]
    ensures aged == AgedAll(mm, t, maxTimePt)
  {
    aged := mm;
    var origin := 1;
    while origin <= numRegions
      invariant 1 <= origin <= if 1 <= numRegions then numRegions + 1 else 1
      invariant aged.Keys == mm.Keys
      invariant forall p :: p in aged ==> aged[p] == if p.0 < origin then Aged(mm[p], t, maxTimePt) else mm[p]
    {
      var dest := 1;
      while dest <= numRegions
        invariant 1 <= dest <= numRegions + 1
        invariant aged.Keys == mm.Keys
        invariant forall p :: p in aged ==>
                    aged[p] == if p.0 < origin || (p.0 == origin && p.1 < dest) then Aged(mm[p], t, maxTimePt) else mm[p]
      {
        var p := (origin, dest);
        var a := AgeMap(aged[p], t, maxTimePt);
        aged := aged[p := a];
        dest := dest + 1;
      }
      origin := origin + 1;
    }
  }

  /**
   * The suffix increment of network.py:189-192 on pair p of a ledger map,
   * when none of its steps looks up a missing key: no change for a pair
   * outside 1..numRegions, whose loop then has no point to visit.
   */
  method BumpPair(mm: map<(int, int), map<int, int>>, p: (int, int), from: int,
                  numRegions: int, firstTimePt: int, maxTimePt: int)
    returns (bumped: map<(int, int), map<int, int>>)
    requires forall q :: q in mm <==> IsPair(q, numRegions)
    requires forall q :: q in mm ==> OverHorizon(mm[q], firstTimePt, maxTimePt)
    requires !(from <= maxTimePt && (!IsPair(p, numRegions) || from < firstTimePt))
    ensures forall q :: q in bumped <==> IsPair(q, numRegions)
    ensures forall q :: q in bumped ==> OverHorizon(bumped[q], firstTimePt, maxTimePt)
    ensures bumped == if IsPair(p, numRegions) then mm[p := Bumped(mm[p], from, maxTimePt)] else mm
  {
    bumped := mm;
    if IsPair(p, numRegions) {
      var m := AddSuffix(mm[p], from, maxTimePt);
      assert m.Keys == mm[p].Keys;
      bumped := mm[p := m];
    }
  }

  /** The maps of all pairs, each aged for the slot (t, t + 1). */
  function AgedAll(mm: map<(int, int), map<int, int>>, t: int, maxTimePt: int): map<(int, int), map<int, int>>
    requires forall p :: p in mm ==> t in mm[p]
  {
    map p | p in mm :: Aged(mm[p], t, maxTimePt)
  }

  /**
   * network.py:112-118 for one of prevStarts and prevEnds: a zero count
   * for every pair of regions 1..numRegions and every point of the horizon.
   */
  method ZeroLedger(numRegions: int, firstTimePt: int, maxTimePt: int) returns (mm: map<(int, int), map<int, int>>)
    ensures forall p :: p in mm <==> IsPair(p, numRegions)
    ensures forall p :: p in mm ==> OverHorizon(mm[p], firstTimePt, maxTimePt)
    ensures forall p, k :: p in mm && k in mm[p] ==> mm[p][k] == 0
  {
    var zeros: map<int, int> := map[];
    var timePt := firstTimePt;
    while timePt <= maxTimePt
      invariant firstTimePt <= timePt <= if firstTimePt <= maxTimePt then maxTimePt + 1 else firstTimePt
      invariant forall k :: k in zeros <==> firstTimePt <= k < timePt
      invariant forall k :: k in zeros ==> zeros[k] == 0
    {
      zeros := zeros[timePt := 0];
      timePt := timePt + 1;
    }
    mm := map[];
    var origin := 1;
    while origin <= numRegions
      invariant 1 <= origin <= if 1 <= numRegions then numRegions + 1 else 1
      invariant forall p :: p in mm <==> IsPair(p, numRegions) && p.0 < origin
      invariant forall p :: p in mm ==> mm[p] == zeros
    {
      var dest := 1;
      while dest <= numRegions
        invariant 1 <= dest <= numRegions + 1
        invariant forall p :: p in mm <==> IsPair(p, numRegions) && (p.0 < origin || (p.0 == origin && p.1 < dest))
        invariant forall p :: p in mm ==> mm[p] == zeros
      {
        mm := mm[(origin, dest) := zeros];
        dest := dest + 1;
      }
      origin := origin + 1;
    }
  }

  /** Aging keeps every pair's map over the same points. */
  lemma AgedAllShape(mm: map<(int, int), map<int, int>>, numRegions: int, firstTimePt: int, maxTimePt: int, t: int)
    requires forall p :: p in mm <==> IsPair(p, numRegions)
    requires forall p :: p in mm ==> OverHorizon(mm[p], firstTimePt, maxTimePt)
    requires firstTimePt <= t <= maxTimePt
    ensures forall p :: p in mm ==> t in mm[p]
    ensures forall p :: p in AgedAll(mm, t, maxTimePt) <==> IsPair(p, numRegions)
    ensures forall p :: p in AgedAll(mm, t, maxTimePt) ==> OverHorizon(AgedAll(mm, t, maxTimePt)[p], firstTimePt, maxTimePt)
  {
    forall p | p in mm
      ensures AgedAll(mm, t, maxTimePt)[p].Keys == mm[p].Keys
    {
    }
  }

  /**
   * prevStarts and prevEnds of network.py:109-118: per OD pair and time
   * point of the horizon, the cumulative starts and ends of rides whose
   * requests came before the current slot.
   */
  class Ledger {
    const numRegions: int
    const firstTimePt: int
    const maxTimePt: int
    var prevStarts: map<(int, int), map<int, int>>
    var prevEnds: map<(int, int), map<int, int>>

    /** Every pair has a count at every point of the horizon. */
    ghost predicate Valid()
      reads this
    {
      (forall p :: p in prevStarts <==> IsPair(p, numRegions))
      && (forall p :: p in prevEnds <==> IsPair(p, numRegions))
      && (forall p :: p in prevStarts ==> OverHorizon(prevStarts[p], firstTimePt, maxTimePt))
      && (forall p :: p in prevEnds ==> OverHorizon(prevEnds[p], firstTimePt, maxTimePt))
    }

    /** network.py:112-118: a zero count for every pair and point. */
    constructor (numRegions: int, firstTimePt: int, maxTimePt: int)
      ensures this.numRegions == numRegions && this.firstTimePt == firstTimePt && this.maxTimePt == maxTimePt
      ensures Valid()
      ensures forall p, k :: p in prevStarts && k in prevStarts[p] ==> prevStarts[p][k] == 0
      ensures forall p, k :: p in prevEnds && k in prevEnds[p] ==> prevEnds[p][k] == 0
    {
      this.numRegions, this.firstTimePt, this.maxTimePt := numRegions, firstTimePt, maxTimePt;
      var zeros := ZeroLedger(numRegions, firstTimePt, maxTimePt);
      prevStarts, prevEnds := zeros, zeros;
    }

    /**
     * The aging of network.py:124-128 at the slot (t, t + 1): for every
     * pair, every point from t + 1 to maxTimePt loses the count at t.
     * When t precedes the horizon the first lookup raises KeyError, before
     * anything has changed.
     */
    method Age(slot: (int, int)) returns (r: Outcome)
      requires Valid() && slot.1 == slot.0 + 1
      modifies this`prevStarts, this`prevEnds
      ensures Valid()
      ensures r.Raised? <==> 1 <= numRegions && slot.0 < firstTimePt && slot.1 <= maxTimePt
      ensures r.Raised? ==> r.error == KeyError
      ensures r.Raised? || maxTimePt < slot.1 ==> prevStarts == old(prevStarts) && prevEnds == old(prevEnds)
      ensures r.Done? && slot.1 <= maxTimePt ==>
                (forall p :: p in old(prevStarts) ==> slot.0 in old(prevStarts)[p])
                && (forall p :: p in old(prevEnds) ==> slot.0 in old(prevEnds)[p])
                && prevStarts == AgedAll(old(prevStarts), slot.0, maxTimePt)
                && prevEnds == AgedAll(old(prevEnds), slot.0, maxTimePt)
    {
      if maxTimePt < slot.1 || numRegions < 1 {
        return Done;  // no point to age, or no pair to age
      }
      if slot.0 < firstTimePt {
        return Raised(KeyError);  // prevStarts[(1, 1)][slot[0]] is missing
      }
      AgedAllShape(prevStarts, numRegions, firstTimePt, maxTimePt, slot.0);
      AgedAllShape(prevEnds, numRegions, firstTimePt, maxTimePt, slot.0);
      prevStarts := AgeAll(prevStarts, numRegions, firstTimePt, maxTimePt, slot.0);
      prevEnds := AgeAll(prevEnds, numRegions, firstTimePt, maxTimePt, slot.0);
      r := Done;
    }

    /**
     * The window extraction of network.py:131-137: for every pair the
     * counts at the window's points. A window point outside the horizon
     * raises KeyError.
     */
    method Extract(window: (int, int)) returns (r: Result<(map<(int, int), map<int, int>>, map<(int, int), map<int, int>>)>)
      requires Valid()
      ensures r.Err? <==> 1 <= numRegions && window.0 <= window.1 && (window.0 < firstTimePt || maxTimePt < window.1)
      ensures r.Err? ==> r.error == KeyError
      ensures r.Ok? ==> var (startsWin, endsWin) := r.value;
                (forall p :: p in startsWin <==> IsPair(p, numRegions))
                && (forall p :: p in endsWin <==> IsPair(p, numRegions))
                && (forall p :: p in startsWin ==> startsWin[p] == Restrict(prevStarts[p], window))
                && (forall p :: p in endsWin ==> endsWin[p] == Restrict(prevEnds[p], window))
    {
      var startsWin := ExtractAll(prevStarts, numRegions, firstTimePt, maxTimePt, window);
      var endsWin := ExtractAll(prevEnds, numRegions, firstTimePt, maxTimePt, window);
      if startsWin.Err? {
        return Err(startsWin.error);
      }
      return Ok((startsWin.value, endsWin.value));
    }

    /** A step of the suffix increment looks up a missing key. */
    predicate BumpFails(p: (int, int), from: int) {
      from <= maxTimePt && (!IsPair(p, numRegions) || from < firstTimePt)
    }

    /**
     * A ride of the slot rescheduled to depart at startchoice, network.py:
     * 187-192: it ends its observed duration timeOut - timeIn later, at
     * endchoice, and one more start is counted from startchoice and one
     * more end from endchoice to maxTimePt. The departure point is the one
     * np.random.choice draws. A count the horizon lacks raises KeyError;
     * when only the ends fail, the starts are already counted.
     */
    method RecordTrip(orig: int, dest: int, timeIn: int, timeOut: int, startchoice: int)
      returns (r: Outcome, endchoice: int)
      requires Valid()
      modifies this`prevStarts, this`prevEnds
      ensures Valid()
      ensures endchoice == startchoice + (timeOut - timeIn)
      ensures var p := (orig, dest);
              (r.Raised? <==> BumpFails(p, startchoice) || BumpFails(p, endchoice))
              && (r.Raised? ==> r.error == KeyError)
              && prevStarts == (if BumpFails(p, startchoice) || !IsPair(p, numRegions) then old(prevStarts)
                                else old(prevStarts)[p := Bumped(old(prevStarts)[p], startchoice, maxTimePt)])
              && prevEnds == (if BumpFails(p, startchoice) || BumpFails(p, endchoice) || !IsPair(p, numRegions)
                              then old(prevEnds)
                              else old(prevEnds)[p := Bumped(old(prevEnds)[p], endchoice, maxTimePt)])
    {
      var p := (orig, dest);
      endchoice := startchoice + (timeOut - timeIn);
      if BumpFails(p, startchoice) {
        return Raised(KeyError), endchoice;
      }
      prevStarts := BumpPair(prevStarts, p, startchoice, numRegions, firstTimePt, maxTimePt);
      if BumpFails(p, endchoice) {
        return Raised(KeyError), endchoice;
      }
      prevEnds := BumpPair(prevEnds, p, endchoice, numRegions, firstTimePt, maxTimePt);
      r := Done;
    }
  }

  // ---------------------------------------------------------------------
  // Repair of a probability vector, network.py:174-178

  const Eps: real := 0.00000001

  function Sum(s: seq<real>): real {
    if s == [] then 0.0 else s[0] + Sum(s[1..])
  }

  /** Entries at or below 0 replaced by 1e-8. */
  function Clamped(s: seq<real>): (c: seq<real>)
    ensures |c| == |s| && forall k :: 0 <= k < |s| ==> c[k] == if s[k] <= 0.0 then Eps else s[k]
  {
    seq(|s|, k requires 0 <= k < |s| => if s[k] <= 0.0 then Eps else s[k])
  }

  /** The clamped vector with its first entry absorbing the round-off. */
  function Sanitised(s: seq<real>): (r: seq<real>)
    requires s != []
    ensures |r| == |s|
    ensures forall k :: 1 <= k < |s| ==> r[k] > 0.0 && (s[k] > 0.0 ==> r[k] == s[k])
  {
    var c := Clamped(s);
    c[0 := c[0] + (1.0 - Sum(c))]
  }

  lemma SumUpdateFirst(s: seq<real>, x: real)
    requires s != []
    ensures Sum(s[0 := x]) == Sum(s) - s[0] + x
  {
    assert s[0 := x][1..] == s[1..];
  }

  /**
   * What the repair promises: the vector sums exactly to 1, every entry
   * but the first is positive, and only the first changes beyond the
   * clamping.
   */
  lemma SanitisedIsDistribution(s: seq<real>)
    requires s != []
    ensures Sum(Sanitised(s)) == 1.0
    ensures |Sanitised(s)| == |s|
    ensures forall k :: 1 <= k < |s| ==> Sanitised(s)[k] > 0.0
    ensures forall k :: 1 <= k < |s| ==> Sanitised(s)[k] == if s[k] <= 0.0 then Eps else s[k]
  {
    var c := Clamped(s);
    SumUpdateFirst(c, c[0] + (1.0 - Sum(c)));
  }

  /**
   * The repair in place on the solver's column of probabilities; an empty
   * column fails at `probs[0, 0]` with IndexError after the clamping loop
   * has done nothing.
   */
  method Sanitise(probs: array<real>) returns (r: Outcome)
    modifies probs
    ensures r.Raised? <==> probs.Length == 0
    ensures r.Raised? ==> r.error == IndexError && probs[..] == old(probs[..])
    ensures r.Done? ==> probs[..] == Sanitised(old(probs[..]))
  {
    var k := 0;
    while k < probs.Length
      invariant 0 <= k <= probs.Length
      invariant forall j :: 0 <= j < k ==> probs[j] == if old(probs[j]) <= 0.0 then Eps else old(probs[j])
      invariant forall j :: k <= j < probs.Length ==> probs[j] == old(probs[j])
    {
      if probs[k] <= 0.0 {
        probs[k] := Eps;
      }
      k := k + 1;
    }
    if probs.Length == 0 {
      return Raised(IndexError);
    }
    assert probs[..] == Clamped(old(probs[..]));
    probs[0] := probs[0] + (1.0 - Sum(probs[..]));
    return Done;
  }

  // ---------------------------------------------------------------------
  // Savings and lost revenue, network.py:19-38

  /**
   * The savings of option k against departing now:
   * (1 / beta_c) (log p_k - log p_0 - beta_d k).
   */
  function Savings(ps: seq<real>, betaC: real, betaD: real, log: real -> real): (sav: seq<real>)
    requires betaC != 0.0 || ps == []
    ensures |sav| == |ps|
  {
    seq(|ps|, k requires 0 <= k < |ps| => Saving(ps, k, betaC, betaD, log))
  }

  /** The saving of option k alone. */
  function Saving(ps: seq<real>, k: nat, betaC: real, betaD: real, log: real -> real): real
    requires k < |ps| && betaC != 0.0
  {
    (1.0 / betaC) * (log(ps[k]) - log(ps[0]) - betaD * k as real)
  }

  /**
   * Savings undo the logit choice model: beta_c sav_k + beta_d k is
   * log p_k - log p_0, whatever log is, so departing now saves nothing.
   */
  lemma SavingsInvert(ps: seq<real>, betaC: real, betaD: real, log: real -> real)
    requires betaC != 0.0
    ensures forall k :: 0 <= k < |ps| ==>
              betaC * Savings(ps, betaC, betaD, log)[k] + betaD * k as real == log(ps[k]) - log(ps[0])
    ensures ps != [] ==> Savings(ps, betaC, betaD, log)[0] == 0.0
  {
    forall k | 0 <= k < |ps|
      ensures betaC * Savings(ps, betaC, betaD, log)[k] + betaD * k as real == log(ps[k]) - log(ps[0])
    {
      var d := log(ps[k]) - log(ps[0]) - betaD * k as real;
      assert betaC * ((1.0 / betaC) * d) == d;
    }
  }

  /** Sum of sav_k p_k: np.sum(optRev). */
  function Revenue(sav: seq<real>, ps: seq<real>): real
    requires |sav| == |ps|
  {
    if ps == [] then 0.0 else Revenue(sav[..|ps| - 1], ps[..|ps| - 1]) + sav[|ps| - 1] * ps[|ps| - 1]
  }

  /** How region reg makes one slot fail, if it does. */
  function RegionFailure(probsSlot: map<int, seq<real>>, reg: int, betaC: real): Option<Error> {
    if reg !in probsSlot then Some(KeyError)
    else if betaC == 0.0 && probsSlot[reg] != [] then Some(ZeroDivisionError)
    else None
  }

  /** The summed revenue of regions 1..n. */
  function RegionsRevenue(probsSlot: map<int, seq<real>>, n: int, betaC: real, betaD: real, log: real -> real): real
    requires forall reg :: 1 <= reg <= n ==> RegionFailure(probsSlot, reg, betaC).None?
  {
    if n < 1 then 0.0
    else
      assert RegionFailure(probsSlot, n, betaC).None?;
      RegionsRevenue(probsSlot, n - 1, betaC, betaD, log)
         + Revenue(Savings(probsSlot[n], betaC, betaD, log), probsSlot[n])
  }

  /**
   * The inner loop of getSavings, network.py:30-34, for one region: the
   * saving of each option and the revenue they forgo. With beta_c = 0
   * the first option divides by zero.
   */
  method RegionSavings(ps: seq<real>, betaC: real, betaD: real, log: real -> real)
    returns (r: Result<(seq<real>, real)>)
    ensures r.Err? <==> betaC == 0.0 && ps != []
    ensures r.Err? ==> r.error == ZeroDivisionError
    ensures r.Ok? ==> r.value.0 == Savings(ps, betaC, betaD, log) && r.value.1 == Revenue(r.value.0, ps)
  {
    var sav: seq<real> := [];
    var optRev := 0.0;
    var key := 0;
    while key < |ps|
      invariant 0 <= key <= |ps| && |sav| == key
      invariant betaC == 0.0 ==> key == 0
      invariant forall j :: 0 <= j < key ==> sav[j] == Saving(ps, j, betaC, betaD, log)
      invariant optRev == Revenue(sav, ps[..key])
    {
      if betaC == 0.0 {
        return Err(ZeroDivisionError);
      }
      var prk := ps[key];
      var s := (1.0 / betaC) * (log(prk) - log(ps[0]) - betaD * key as real);
      assert s == Saving(ps, key, betaC, betaD, log);
      assert ps[..key + 1][..key] == ps[..key];
      assert (sav + [s])[..key] == sav;
      sav := sav + [s];
      optRev := optRev + s * prk;
      key := key + 1;
    }
    assert ps[..|ps|] == ps;
    assert sav == Savings(ps, betaC, betaD, log);
    return Ok((sav, optRev));
  }

  /** The savings and lost revenue of one slot. */
  datatype SlotResult = SlotResult(savings: map<int, seq<real>>, lostRev: Option<real>)

  /**
   * One slot of getSavings, network.py:27-37: for regions 1..numRegions in
   * turn, the savings of each option and the revenue they forgo; lostRev
   * is the mean over the regions, NaN (None) when there is none. A region
   * missing from probs raises KeyError; with beta_c = 0 the first
   * non-empty list divides by zero.
   */
  method SlotSavings(probsSlot: map<int, seq<real>>, numRegions: int, betaC: real, betaD: real, log: real -> real)
    returns (r: Result<SlotResult>)
    ensures r.Err? <==> exists reg :: 1 <= reg <= numRegions && RegionFailure(probsSlot, reg, betaC).Some?
    ensures r.Err? ==>
              exists reg :: 1 <= reg <= numRegions
                && (forall q :: 1 <= q < reg ==> RegionFailure(probsSlot, q, betaC).None?)
                && RegionFailure(probsSlot, reg, betaC) == Some(r.error)
    ensures r.Ok? ==> forall reg :: reg in r.value.savings <==> 1 <= reg <= numRegions
    ensures r.Ok? ==> forall reg :: reg in r.value.savings ==>
              RegionFailure(probsSlot, reg, betaC).None?
              && r.value.savings[reg] == Savings(probsSlot[reg], betaC, betaD, log)
    ensures r.Ok? ==>
              r.value.lostRev == if numRegions < 1 then None
                                 else Some(RegionsRevenue(probsSlot, numRegions, betaC, betaD, log) / numRegions as real)
  {
    var savings: map<int, seq<real>> := map[];
    var regRev := 0.0;
    var reg := 1;
    while reg <= numRegions
      invariant 1 <= reg <= if 1 <= numRegions then numRegions + 1 else 1
      invariant forall q :: 1 <= q < reg ==> RegionFailure(probsSlot, q, betaC).None?
      invariant forall q :: q in savings <==> 1 <= q < reg
      invariant forall q :: q in savings ==>
                  RegionFailure(probsSlot, q, betaC).None? && savings[q] == Savings(probsSlot[q], betaC, betaD, log)
      invariant regRev == RegionsRevenue(probsSlot, reg - 1, betaC, betaD, log)
    {
      if reg !in probsSlot {
        assert RegionFailure(probsSlot, reg, betaC) == Some(KeyError);
        return Err(KeyError);
      }
      var ps := probsSlot[reg];
      var one := RegionSavings(ps, betaC, betaD, log);
      if one.Err? {
        assert RegionFailure(probsSlot, reg, betaC) == Some(ZeroDivisionError);
        return Err(ZeroDivisionError);
      }
      var (sav, optRev) := one.value;
      savings := savings[reg := sav];
      regRev := regRev + optRev;
      reg := reg + 1;
    }
    var lostRev := if numRegions < 1 then None else Some(regRev / numRegions as real);
    return Ok(SlotResult(savings, lostRev));
  }
}
