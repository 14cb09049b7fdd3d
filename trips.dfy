/**
 * The trip table of utils.py and the helpers that read it: the per-OD,
 * per-window record filter getODdata, the Poisson rate estimate getLambdaMLE
 * and the clock conversion map2time.
 *
 * A trip table is a dictionary from column labels to equally long columns;
 * row i of every column describes trip i. The columns 'region', 'DOregion'
 * and 'TimeIn' hold integers, the text columns (pickup and drop-off stamps,
 * dispatching base, ...) strings.
 */
module Trips {
  import opened Wrappers

  datatype Cell = Int(i: int) | Text(s: string)

  type Table = map<string, seq<Cell>>

  const RegionLabel: string := "region"
  const DoRegionLabel: string := "DOregion"
  const TimeInLabel: string := "TimeIn"
  const PickupLabel: string := "Pickup_DateTime"

  /** Every column has n rows. */
  predicate Rectangular(d: Table, n: nat) {
    forall l :: l in d ==> |d[l]| == n
  }


  /** `val == x` for a cell and a Python int: a string never equals an int. */
  predicate IsInt(c: Cell, x: int) {
    c.Int? && c.i == x
  }

  /** `val in np.arange(w0, w1, 1)`: an integer slot of the half-open window. */
  predicate InSlots(c: Cell, w0: int, w1: int) {
    c.Int? && w0 <= c.i < w1
  }

  /**
   * The deletion test of row i reads a column the table lacks. The `or`
   * of utils.py:104 short-circuits: DOregion is read only for a row from
   * orig, TimeIn only for a row from orig to dest.
   */
  predicate RowRaises(d: Table, n: nat, i: nat, orig: int, dest: int)
    requires Rectangular(d, n) && RegionLabel in d && i < n
  {
    IsInt(d[RegionLabel][i], orig)
    && (DoRegionLabel !in d || (IsInt(d[DoRegionLabel][i], dest) && TimeInLabel !in d))
  }

  /** The mask loop of utils.py:103-105 raises KeyError: 'region' is always read. */
  predicate MaskRaises(d: Table, n: nat, orig: int, dest: int)
    requires Rectangular(d, n)
  {
    RegionLabel !in d || exists i :: 0 <= i < n && RowRaises(d, n, i, orig, dest)
  }

  /** Trip i goes from orig to dest and starts in one of the window's slots. */
  predicate RowMatches(d: Table, n: nat, i: nat, orig: int, dest: int, w0: int, w1: int)
    requires Rectangular(d, n) && RegionLabel in d && i < n && !RowRaises(d, n, i, orig, dest)
  {
    IsInt(d[RegionLabel][i], orig) && IsInt(d[DoRegionLabel][i], dest)
    && InSlots(d[TimeInLabel][i], w0, w1)
  }

  /** The rows to keep, as a mask over the row indexes. */
  function Keep(d: Table, n: nat, orig: int, dest: int, w0: int, w1: int): (k: seq<bool>)
    requires Rectangular(d, n) && !MaskRaises(d, n, orig, dest)
    ensures |k| == n
    ensures forall i :: 0 <= i < n ==> (k[i] <==> RowMatches(d, n, i, orig, dest, w0, w1))
  {
    seq(n, i requires 0 <= i < n => RowMatches(d, n, i, orig, dest, w0, w1))
  }

  /**
   * The mask loop of utils.py:103-105, row by row: KeyError at the first
   * row whose test reaches a missing column, otherwise the rows to keep.
   */
  method MaskRows(d: Table, n: nat, orig: int, dest: int, w0: int, w1: int) returns (r: Result<seq<bool>>)
    requires Rectangular(d, n)
    ensures r.Err? <==> MaskRaises(d, n, orig, dest)
    ensures r.Err? ==> r.error == KeyError
    ensures r.Ok? ==> r.value == Keep(d, n, orig, dest, w0, w1)
  {
    if RegionLabel !in d {
      return Err(KeyError);
    }
    var keep: seq<bool> := [];
    var key := 0;
    while key < n
      invariant 0 <= key <= n && |keep| == key
      invariant forall i :: 0 <= i < key ==> !RowRaises(d, n, i, orig, dest)
      invariant forall i :: 0 <= i < key ==> (keep[i] <==> RowMatches(d, n, i, orig, dest, w0, w1))
    {
      var val := d[RegionLabel][key];
      var deleted: bool;
      if !IsInt(val, orig) {
        deleted := true;
      } else if DoRegionLabel !in d {
        assert RowRaises(d, n, key, orig, dest);
        return Err(KeyError);
      } else if !IsInt(d[DoRegionLabel][key], dest) {
        deleted := true;
      } else if TimeInLabel !in d {
        assert RowRaises(d, n, key, orig, dest);
        return Err(KeyError);
      } else {
        deleted := !InSlots(d[TimeInLabel][key], w0, w1);
      }
      keep := keep + [!deleted];
      key := key + 1;
    }
    return Ok(keep);
  }

  /** The entries of col whose mask bit is set, in their original order. */
  function Select(col: seq<Cell>, keep: seq<bool>): (r: seq<Cell>)
    requires |col| == |keep|
    ensures |r| <= |col|
  {
    if col == [] then []
    else (if keep[0] then [col[0]] else []) + Select(col[1..], keep[1..])
  }

  /** The indexes whose mask bit is set, in increasing order. */
  function KeptIndexes(keep: seq<bool>, from: nat): (r: seq<nat>)
    ensures forall j :: 0 <= j < |r| ==> from <= r[j] < from + |keep| && keep[r[j] - from]
    decreases |keep|
  {
    if keep == [] then []
    else (if keep[0] then [from] else []) + KeptIndexes(keep[1..], from + 1)
  }

  /** The kept indexes come in increasing order, and none is missed. */
  lemma {:induction false} KeptIndexesOrdered(keep: seq<bool>, from: nat)
    ensures forall j, k :: 0 <= j < k < |KeptIndexes(keep, from)| ==> KeptIndexes(keep, from)[j] < KeptIndexes(keep, from)[k]
    ensures forall i :: from <= i < from + |keep| && keep[i - from] ==> i in KeptIndexes(keep, from)
    decreases |keep|
  {
    if keep != [] {
      KeptIndexesOrdered(keep[1..], from + 1);
      var ks := KeptIndexes(keep[1..], from + 1);
      var r := KeptIndexes(keep, from);
      if keep[0] {
        assert r == [from] + ks;
        forall j, k | 0 <= j < k < |r|
          ensures r[j] < r[k]
        {
          assert r[k] == ks[k - 1];
          if 0 < j {
            assert r[j] == ks[j - 1];
          }
        }
        forall i | from <= i < from + |keep| && keep[i - from]
          ensures i in r
        {
          if i != from {
            assert keep[1..][i - (from + 1)] == keep[i - from];
            assert i in ks;
          }
        }
      } else {
        assert r == ks;
        forall i | from <= i < from + |keep| && keep[i - from]
          ensures i in r
        {
          assert keep[1..][i - (from + 1)] == keep[i - from];
        }
      }
    }
  }

  lemma {:induction false} SelectSplit(a: seq<Cell>, ka: seq<bool>, b: seq<Cell>, kb: seq<bool>)
    requires |a| == |ka| && |b| == |kb|
    ensures Select(a + b, ka + kb) == Select(a, ka) + Select(b, kb)
    decreases |a|
  {
    if a == [] {
      assert a + b == b && ka + kb == kb;
    } else {
      var ab, kab := a + b, ka + kb;
      assert ab[0] == a[0] && kab[0] == ka[0];
      assert ab[1..] == a[1..] + b && kab[1..] == ka[1..] + kb;
      SelectSplit(a[1..], ka[1..], b, kb);
      var h := if ka[0] then [a[0]] else [];
      assert Select(ab, kab) == h + Select(ab[1..], kab[1..]);
      assert Select(a, ka) == h + Select(a[1..], ka[1..]);
    }
  }

  lemma {:induction false} SelectAllKept(a: seq<Cell>, ka: seq<bool>)
    requires |a| == |ka| && forall i :: 0 <= i < |ka| ==> ka[i]
    ensures Select(a, ka) == a
    decreases |a|
  {
    if a != [] {
      SelectAllKept(a[1..], ka[1..]);
    }
  }

  /**
   * Selecting with a mask picks exactly the entries at the kept indexes, in
   * order; since the indexes depend on the mask alone, every column of a
   * table loses the same rows and the rows stay aligned.
   */
  lemma {:induction false} SelectIsKeptRows(col: seq<Cell>, keep: seq<bool>, from: nat)
    requires |col| == |keep|
    ensures |Select(col, keep)| == |KeptIndexes(keep, from)|
    ensures forall j :: 0 <= j < |Select(col, keep)| ==>
              Select(col, keep)[j] == col[KeptIndexes(keep, from)[j] - from]
  {
    SelectLength(col, keep, from);
    forall j | 0 <= j < |Select(col, keep)|
      ensures Select(col, keep)[j] == col[KeptIndexes(keep, from)[j] - from]
    {
      SelectAt(col, keep, from, j);
    }
  }

  lemma {:induction false} SelectLength(col: seq<Cell>, keep: seq<bool>, from: nat)
    requires |col| == |keep|
    ensures |Select(col, keep)| == |KeptIndexes(keep, from)|
    decreases |col|
  {
    if col != [] {
      SelectLength(col[1..], keep[1..], from + 1);
    }
  }

  lemma {:induction false} SelectAt(col: seq<Cell>, keep: seq<bool>, from: nat, j: nat)
    requires |col| == |keep| && j < |Select(col, keep)| && |Select(col, keep)| == |KeptIndexes(keep, from)|
    ensures Select(col, keep)[j] == col[KeptIndexes(keep, from)[j] - from]
    decreases |col|
  {
    SelectLength(col[1..], keep[1..], from + 1);
    if keep[0] && j == 0 {
      assert Select(col, keep)[0] == col[0];
      assert KeptIndexes(keep, from)[0] == from;
    } else {
      var j' := if keep[0] then j - 1 else j;
      SelectUnfold(col, keep, j);
      KeptIndexesUnfold(keep, from, j);
      SelectAt(col[1..], keep[1..], from + 1, j');
      var x := KeptIndexes(keep[1..], from + 1)[j'];
      assert col[1..][x - (from + 1)] == col[x - from];
    }
  }

  /** Entry j of a selection, read off its first step. */
  lemma SelectUnfold(col: seq<Cell>, keep: seq<bool>, j: nat)
    requires |col| == |keep| && col != [] && j < |Select(col, keep)| && !(keep[0] && j == 0)
    ensures var j' := if keep[0] then j - 1 else j;
            j' < |Select(col[1..], keep[1..])| && Select(col, keep)[j] == Select(col[1..], keep[1..])[j']
  {
    var rest := Select(col[1..], keep[1..]);
    if keep[0] {
      assert Select(col, keep) == [col[0]] + rest;
      assert ([col[0]] + rest)[j] == rest[j - 1];
    } else {
      assert Select(col, keep) == [] + rest;
      assert [] + rest == rest;
    }
  }

  /** Entry j of the kept indexes, read off their first step. */
  lemma KeptIndexesUnfold(keep: seq<bool>, from: nat, j: nat)
    requires keep != [] && j < |KeptIndexes(keep, from)| && !(keep[0] && j == 0)
    ensures var j' := if keep[0] then j - 1 else j;
            j' < |KeptIndexes(keep[1..], from + 1)| && KeptIndexes(keep, from)[j] == KeptIndexes(keep[1..], from + 1)[j']
  {
  }

  /**
   * The first loop of getODdata, utils.py:103-105: the indexes of the rows
   * that fail one of the three conditions, in increasing order.
   */
  method DeleteIndexes(keep: seq<bool>) returns (delIndexes: seq<nat>)
    ensures forall j :: 0 <= j < |delIndexes| ==> delIndexes[j] < |keep|
    ensures forall j, k :: 0 <= j < k < |delIndexes| ==> delIndexes[j] < delIndexes[k]
    ensures forall i :: 0 <= i < |keep| ==> (i in delIndexes <==> !keep[i])
  {
    delIndexes := [];
    var key := 0;
    while key < |keep|
      invariant 0 <= key <= |keep|
      invariant forall j :: 0 <= j < |delIndexes| ==> delIndexes[j] < key
      invariant forall j, k :: 0 <= j < k < |delIndexes| ==> delIndexes[j] < delIndexes[k]
      invariant forall i :: 0 <= i < key ==> (i in delIndexes <==> !keep[i])
    {
      if !keep[key] {
        delIndexes := delIndexes + [key];
      }
      key := key + 1;
    }
  }

  /**
   * Deleting index from a column that already holds the selection above b,
   * when index is the only row to drop in [index, b), extends the selection
   * down to index.
   */
  lemma DeleteStep(col: seq<Cell>, keep: seq<bool>, index: nat, b: nat)
    requires |col| == |keep| && index < b <= |col|
    requires !keep[index] && forall i :: index < i < b ==> keep[i]
    ensures var r := col[..b] + Select(col[b..], keep[b..]);
            r[..index] + r[index + 1..] == col[..index] + Select(col[index..], keep[index..])
  {
    var tail := Select(col[b..], keep[b..]);
    var r := col[..b] + tail;
    var mid, kmid := col[index + 1..b], keep[index + 1..b];
    assert r[..index] == col[..index];
    assert r[index + 1..] == mid + tail;
    var c, k := col[index..], keep[index..];
    assert c[1..] == mid + col[b..] && k[1..] == kmid + keep[b..];
    assert Select(c, k) == Select(c[1..], k[1..]);
    SelectSplit(mid, kmid, col[b..], keep[b..]);
    SelectAllKept(mid, kmid);
  }

  /** A prefix in which every row is kept is its own selection. */
  lemma KeptPrefix(col: seq<Cell>, keep: seq<bool>, b: nat)
    requires |col| == |keep| && b <= |col|
    requires forall i :: 0 <= i < b ==> keep[i]
    ensures col[..b] + Select(col[b..], keep[b..]) == Select(col, keep)
  {
    assert col == col[..b] + col[b..] && keep == keep[..b] + keep[b..];
    SelectSplit(col[..b], keep[..b], col[b..], keep[b..]);
    SelectAllKept(col[..b], keep[..b]);
  }

  /**
   * The inner loop of getODdata, utils.py:108-109: `del col[index]` for the
   * collected indexes from the largest down. Deleting from the top leaves
   * the lower indexes pointing at the rows they were collected for, so the
   * column ends up holding exactly the kept rows.
   */
  method DeleteDescending(col: seq<Cell>, delIndexes: seq<nat>, keep: seq<bool>) returns (r: seq<Cell>)
    requires |col| == |keep|
    requires forall j :: 0 <= j < |delIndexes| ==> delIndexes[j] < |col|
    requires forall j, k :: 0 <= j < k < |delIndexes| ==> delIndexes[j] < delIndexes[k]
    requires forall i :: 0 <= i < |keep| ==> (i in delIndexes <==> !keep[i])
    ensures r == Select(col, keep)
  {
    r := col;
    var j := |delIndexes|;
    assert col[|col|..] == [] && col[..|col|] == col;
    while j > 0
      invariant 0 <= j <= |delIndexes|
      invariant var b := if j == |delIndexes| then |col| else delIndexes[j];
                b <= |col| && r == col[..b] + Select(col[b..], keep[b..])
    {
      var b := if j == |delIndexes| then |col| else delIndexes[j];
      var index := delIndexes[j - 1];
      // no deleted index lies strictly between index and b
      assert forall k :: 0 <= k < |delIndexes| ==> delIndexes[k] <= index || b <= delIndexes[k];
      assert forall i :: index < i < b ==> i !in delIndexes;
      assert index in delIndexes;
      DeleteStep(col, keep, index, b);
      r := r[..index] + r[index + 1..];
      j := j - 1;
    }
    var b := if |delIndexes| == 0 then |col| else delIndexes[0];
    assert forall k :: 0 <= k < |delIndexes| ==> b <= delIndexes[k];
    assert forall i :: 0 <= i < b ==> i !in delIndexes;
    KeptPrefix(col, keep, b);
  }

  /** The filtered table: every column keeps exactly the matching rows. */
  function OdData(d: Table, n: nat, orig: int, dest: int, w0: int, w1: int): (r: Table)
    requires Rectangular(d, n) && !MaskRaises(d, n, orig, dest)
    ensures r.Keys == d.Keys
  {
    var keep := Keep(d, n, orig, dest, w0, w1);
    map l | l in d :: Select(d[l], keep)
  }

  /**
   * getODdata, utils.py:84-111, on a table of n rows. A key column that a
   * row's test reaches but the table lacks is the KeyError the mask loop
   * raises; the input is a value, so the copy of line 100 leaves the
   * caller's table as it was.
   */
  method GetODData(d: Table, n: nat, orig: int, dest: int, w0: int, w1: int) returns (r: Result<Table>)
    requires Rectangular(d, n)
    ensures r.Err? <==> MaskRaises(d, n, orig, dest)
    ensures r.Err? ==> r.error == KeyError
    ensures r.Ok? ==> r.value == OdData(d, n, orig, dest, w0, w1)
  {
    var mask := MaskRows(d, n, orig, dest, w0, w1);
    if mask.Err? {
      return Err(mask.error);
    }
    var keep := mask.value;
    var delIndexes := DeleteIndexes(keep);
    var out := d;
    var labels := d.Keys;
    while labels != {}
      invariant labels <= d.Keys && out.Keys == d.Keys
      invariant forall l :: l in out ==> out[l] == if l in labels then d[l] else Select(d[l], keep)
      decreases labels
    {
      var name :| name in labels;
      var col := DeleteDescending(out[name], delIndexes, keep);
      out := out[name := col];
      labels := labels - {name};
    }
    return Ok(out);
  }

  /**
   * What getODdata promises: the output is again a table, of as many rows
   * as there are matching trips, and its row j is the input row at the j-th
   * matching index, in every column alike; the matching indexes are exactly
   * the rows for the OD pair that start in the window.
   */
  lemma OdDataRows(d: Table, n: nat, orig: int, dest: int, w0: int, w1: int)
    requires Rectangular(d, n) && !MaskRaises(d, n, orig, dest)
    ensures var ks := KeptIndexes(Keep(d, n, orig, dest, w0, w1), 0);
            var r := OdData(d, n, orig, dest, w0, w1);
            Rectangular(r, |ks|)
            && (forall l, j :: l in r && 0 <= j < |ks| ==> r[l][j] == d[l][ks[j]])
            && (forall j, k :: 0 <= j < k < |ks| ==> ks[j] < ks[k])
            && (forall i :: 0 <= i < n ==> (i in ks <==> RowMatches(d, n, i, orig, dest, w0, w1)))
  {
    var keep := Keep(d, n, orig, dest, w0, w1);
    KeptIndexesOrdered(keep, 0);
    forall l | l in d
      ensures |Select(d[l], keep)| == |KeptIndexes(keep, 0)|
      ensures forall j :: 0 <= j < |Select(d[l], keep)| ==>
                Select(d[l], keep)[j] == d[l][KeptIndexes(keep, 0)[j]]
    {
      SelectIsKeptRows(d[l], keep, 0);
    }
  }

  /** Rates estimated from a window's trips (utils.py:266-270). */
  datatype Rates = Rates(lambdaSlots: real, lambdaMin: real)

  /**
   * getLambdaMLE, utils.py:250-270: the number of trips in the window over
   * its length, per minute and per slot. A table without the pickup column
   * raises KeyError; a zero window or slot length divides by zero.
   */
  function GetLambdaMLE(d: Table, slotInMinutes: real, windowInMinutes: real): (r: Result<Rates>)
    ensures r.Err? <==> PickupLabel !in d || windowInMinutes == 0.0 || slotInMinutes == 0.0
    ensures r.Err? ==> r.error == (if PickupLabel !in d then KeyError else ZeroDivisionError)
    ensures r.Ok? ==> r.value.lambdaMin * windowInMinutes == |d[PickupLabel]| as real
    ensures r.Ok? ==> r.value.lambdaSlots == r.value.lambdaMin * slotInMinutes
    ensures r.Ok? && windowInMinutes > 0.0 && slotInMinutes > 0.0 ==>
              r.value.lambdaMin >= 0.0 && r.value.lambdaSlots >= 0.0
  {
    if PickupLabel !in d then Err(KeyError)
    else
      var totalArrivals := |d[PickupLabel]| as real;
      if windowInMinutes == 0.0 then Err(ZeroDivisionError)
      else
        var lambdaMin := totalArrivals / windowInMinutes;
        if slotInMinutes == 0.0 then Err(ZeroDivisionError)
        else
          var numSlots := windowInMinutes / slotInMinutes;
          Ok(Rates(totalArrivals / numSlots, lambdaMin))
  }

  /** A clock time of datetime.time, to the minute. */
  datatype Clock = Clock(hour: int, minute: int)

  predicate ValidClock(c: Clock) {
    0 <= c.hour <= 23 && 0 <= c.minute <= 59
  }

  /**
   * map2time, utils.py:114-132: the clock time timePt slots after start.
   * floor(x / 60) on integers is Dafny's division by 60, and the minutes
   * left over are the remainder. The hour and the minute are added
   * separately, and datetime.time rejects a result out of range with
   * ValueError. The rendering as "h:m" text is the Clock value itself.
   */
  function Map2Time(timePt: int, slotInMinutes: int, start: Clock): (r: Result<Clock>)
    requires ValidClock(start)
    ensures var total := timePt * slotInMinutes;
            var h, m := start.hour + total / 60, start.minute + total % 60;
            (r.Ok? <==> 0 <= h <= 23 && 0 <= m <= 59)
            && (r.Ok? ==> r.value == Clock(h, m))
            && (r.Err? ==> r.error == ValueError)
    ensures r.Ok? ==> ValidClock(r.value)
  {
    AddedSeparately(timePt * slotInMinutes, start)
  }

  /** The hours and the minutes of an offset of total minutes, added to start one by one. */
  function AddedSeparately(total: int, start: Clock): (r: Result<Clock>)
    ensures r.Ok? ==> ValidClock(r.value) && MinuteOfDay(r.value) == MinuteOfDay(start) + total
    ensures r.Err? ==> r.error == ValueError
  {
    var addHour := total / 60;
    var addMinute := total - addHour * 60;
    var newHour := start.hour + addHour;
    var newMinute := start.minute + addMinute;
    if 0 <= newHour <= 23 && 0 <= newMinute <= 59 then Ok(Clock(newHour, newMinute))
    else Err(ValueError)
  }

  /** Minutes since midnight. */
  function MinuteOfDay(c: Clock): int {
    c.hour * 60 + c.minute
  }

  /**
   * map2time with the minutes carried into the hour: the clock time that
   * lies exactly timePt * slotInMinutes minutes after start, or ValueError
   * when that falls outside the day.
   */
  function Map2TimeCarried(timePt: int, slotInMinutes: int, start: Clock): (r: Result<Clock>)
    requires ValidClock(start)
    ensures var total := MinuteOfDay(start) + timePt * slotInMinutes;
            (r.Ok? <==> 0 <= total < 24 * 60)
            && (r.Ok? ==> ValidClock(r.value) && MinuteOfDay(r.value) == total)
            && (r.Err? ==> r.error == ValueError)
  {
    Carried(timePt * slotInMinutes, start)
  }

  /** The clock time total minutes after start, within the day. */
  function Carried(total: int, start: Clock): Result<Clock> {
    var t := MinuteOfDay(start) + total;
    if 0 <= t < 24 * 60 then Ok(Clock(t / 60, t % 60)) else Err(ValueError)
  }

  /**
   * On a start on the full hour, the default 16:00 among them, map2time is
   * the carried conversion.
   */
  lemma Map2TimeOnTheHour(timePt: int, slotInMinutes: int, start: Clock)
    requires ValidClock(start) && start.minute == 0
    ensures Map2Time(timePt, slotInMinutes, start) == Map2TimeCarried(timePt, slotInMinutes, start)
  {
    OnTheHour(timePt * slotInMinutes, start);
  }

  lemma OnTheHour(total: int, start: Clock)
    requires ValidClock(start) && start.minute == 0
    ensures AddedSeparately(total, start) == Carried(total, start)
  {
    HourCarry(start.hour, total);
  }

  /** Whole hours added to a time in minutes come out of the division unchanged. */
  lemma HourCarry(h: int, total: int)
    ensures (h * 60 + total) / 60 == h + total / 60
    ensures (h * 60 + total) % 60 == total % 60
    ensures 0 <= h * 60 + total < 24 * 60 <==> 0 <= h + total / 60 <= 23
  {
    var q, r := total / 60, total % 60;
    assert h * 60 + total == (h + q) * 60 + r;
  }

  /**
   * Off the full hour the minutes are not carried: four ten-minute slots
   * after 16:30 give minute 70, which datetime.time rejects, although the
   * time meant is 17:10.
   */
  lemma Map2TimeMissesCarry()
    ensures Map2Time(4, 10, Clock(16, 30)) == Err(ValueError)
    ensures Map2TimeCarried(4, 10, Clock(16, 30)) == Ok(Clock(17, 10))
  {
  }
}
