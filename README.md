# plp-pricing: estimation and bookkeeping layer, modelled in Dafny

plp-pricing simulates peak-load pricing for ride-hailing. Time is cut into
slots of a few minutes. For every slot and every region, a convex program
chooses how likely a rider is to depart now rather than at a later point of
the upcoming window. This project models the layer that feeds that program
and consumes its answer. The program itself is not modelled.

- **Empirical** (`empirical.dfy`, utils.py): the empirical service-time CDF G
  of an OD pair's ascending sample (`evalEmpiricalDist`). Also the integral
  of G from 0 to t, which the source computes with the trapezoidal rule over
  the step function of G (`getEmpiricalIntegral`), and the ascending sample
  (`getOrderedService`, on durations already converted to minutes).
- **Trips** (`trips.dfy`, utils.py): the trip table as a dictionary of
  columns. It covers the per-OD, per-window record filter (`getODdata`), the
  Poisson rate estimate (`getLambdaMLE`) and the time-point-to-clock
  conversion (`map2time`).
- **OdPairs** (`odpair.dfy`, odpair.py): the class `odpair`. It holds a
  pair's observed and predicted cumulative starts and ends per window point,
  and its termination-probability lists G(tau_k - tau_j).
- **Regions** (`region.dfy`, region.py): the class `region`, without
  `optimize`. It finds the OD pairs that leave and enter a region, sums
  their maps into region totals, and computes the load process and the
  demand of the current slot.
- **Network** (`network.dfy`, network.py):
  - the driver's slot and window lists;
  - the ledger of cumulative starts and ends per pair and time point, which
    is aged at every slot, cut to the window and bumped by every
    rescheduled ride;
  - the repair of the solver's probability vector;
  - the savings and lost revenue of `getSavings`.
- **Wrappers** (`wrappers.dfy`): `Option`, `Result`, `Outcome` and the
  Python exceptions the core can raise (IndexError, KeyError, ValueError,
  ZeroDivisionError).

Floats are modelled as Dafny `real`, so sums and the trapezoidal rule are
exact. Ride counts in the ledger are `int`. A Python exception is an `Err`
or `Raised` value. A procedure that may raise after changing a field states
what it has changed by then.

`np.log` is a function parameter of the savings. Only the identity
sav_0 = 0 depends on it, and that holds for any `log`. The departure point
that `np.random.choice` draws is an argument of `Ledger.RecordTrip`.

Two properties of the code worth knowing:

- Aging the same slot twice is not idempotent. network.py:126-128
  subtracts the count at slot[0] from every later point on every run, so
  aging twice equals aging once only when that count is 0 or no point lies
  after the slot. `Network.AgedTwice` proves exactly that.
- `map2time` (its docstring: "maps time point to clock time", utils.py:117)
  adds whole hours and the remaining minutes separately and never carries
  the minutes into the hour. See "## Findings".

## Model

| member | source | states |
|---|---|---|
| Empirical.PrefixLeq | utils.py:205-210 | how far the `NotComplete` scan advances: at most the sample's length, every entry before it <= t, and the entry it stops at > t |
| Empirical.Cdf | utils.py:200-212 | G(t) of a sample: IndexError exactly when the sample is empty (`listOS[0]` is indexed unconditionally), otherwise a value in [0, 1] |
| Empirical.SamplesUpTo | utils.py:203-210 | the `NotComplete` loop collects exactly the longest prefix of the sample whose entries are <= t |
| Empirical.PrefixLeqUnique | utils.py:206-210 | the prefix the loop stops at is the only one with every entry <= t and the next one > t |
| Empirical.EvalEmpiricalDist | utils.py:188-212 | the loop-based evaluation returns G(t), and the same IndexError on an empty sample |
| Empirical.CountLeqNone | utils.py:206 | when every sample exceeds t, no sample is counted and no gap is summed |
| Empirical.SortedPrefixIsCount | utils.py:203-211 | on an ascending sample the collected prefix is the number of samples <= t, and the sum of its gaps to t is the sum over all samples <= t |
| Empirical.CdfCountsSamples | utils.py:211 | on an ascending non-empty sample, G(t) = (number of samples <= t) / n |
| Empirical.CdfBoundary | utils.py:205-211 | G(t) = 0 when t is below the first sample, and G(t) = 1 when t is at or past the last one |
| Empirical.PrefixLeqMonotone | utils.py:206-210 | the collected prefix does not shrink as t grows |
| Empirical.CdfMonotone | utils.py:205-211 | G is non-decreasing in t |
| Empirical.SumGapsNonneg | utils.py:160-162 | the gaps t - s_i of the collected samples are non-negative in sum |
| Empirical.CdfIntegral | utils.py:142-184 | the source's trapezoidal value, which equals the integral of G from 0 to t when every sample is >= 0 (a negative sample adds area left of 0): IndexError exactly when the sample is empty, otherwise non-negative, and 0 when t is below the first sample |
| Empirical.DoubledAppend | utils.py:170-171 | doubling each sample extends element by element, `x.extend([elem]*2)` |
| Empirical.LevelStep | utils.py:176-179 | every counted sample raises the step by 1/n |
| Empirical.LevelIsMultiple | utils.py:175-180 | after k samples the step height is k/n |
| Empirical.RampAppend | utils.py:176-179 | each sample appends the pair (old height, new height) to y |
| Empirical.StepAbscissae | utils.py:168-172 | x is `[0, s1, s1, ..., sm, sm, t]`, of length 2m + 2 |
| Empirical.StepOrdinates | utils.py:173-180 | y is `[0, 0, 1/n, 1/n, ..., m/n, m/n]`, of length 2m + 2 |
| Empirical.TrapzOfSteps | utils.py:166-182 | the trapezoidal rule over that step function is the exact area: each counted sample contributes its height times (t - s_i) |
| Empirical.TrapzNonneg | utils.py:182 | `Trapz`, the model of `np.trapz(y, x)` (the trapezoidal rule over the polyline through the points (x[i], y[i])), is non-negative over non-decreasing abscissae and non-negative ordinates |
| Empirical.TrapzCons2 | utils.py:182 | `np.trapz` over a list is its first two trapezoids plus the rule over the rest |
| Empirical.StepArea | utils.py:182 | the area of one step folds into the rest of the sum |
| Empirical.GetEmpiricalIntegral | utils.py:142-184 | the loop, the step-function construction and the trapezoidal rule together compute `CdfIntegral` (the integral of G from 0 to t for non-negative samples), and IndexError on an empty sample |
| Empirical.SumGapsAppend | utils.py:160-162 | the sum of gaps to t splits over concatenation |
| Empirical.SumGapsShift | utils.py:160-182 | moving t by d adds d for every collected sample |
| Empirical.CdfIntegralClosedForm | utils.py:142-184 | on an ascending non-empty sample the integral is (1/n) times the sum over s_i <= t of (t - s_i) |
| Empirical.CdfIntegralMonotone | utils.py:142-184 | the integral is non-decreasing in t |
| Empirical.SumGapsAllAt | utils.py:160-162 | samples all equal to t contribute no area |
| Empirical.CdfIntegralAtZero | utils.py:142-184 | for a sample of non-negative durations, the integral up to 0 is 0 |
| Empirical.Insert | utils.py:245 | inserting into an ascending list keeps it ascending and adds exactly the one element |
| Empirical.SortAscending | utils.py:245 | `ordServiceTime.sort()`: an ascending permutation of the input |
| Empirical.GetOrderedService | utils.py:233-246 | the durations converted to slots and sorted: same length, ascending, the same multiset; ZeroDivisionError exactly when the slot length is 0 and there is a trip |
| Trips.Keep | utils.py:103-105 | on a table where no row's test reaches a missing column, row i is kept exactly when region == orig, DOregion == dest and TimeIn lies in [window[0], window[1]) |
| Trips.MaskRows | utils.py:101-105 | the mask loop: KeyError exactly when 'region' is missing, or some row from orig reaches a missing 'DOregion', or some row from orig to dest reaches a missing 'TimeIn' (the `or` short-circuits); otherwise the rows to keep |
| Trips.Select | utils.py:107-109 | keeping rows never lengthens a column |
| Trips.KeptIndexes | utils.py:103-109 | the kept row indexes: each in range and each a kept row |
| Trips.KeptIndexesOrdered | utils.py:103-109 | those indexes are strictly increasing, and every kept row from the start point on is among them |
| Trips.SelectSplit | utils.py:107-109 | filtering a concatenation filters each part |
| Trips.SelectAllKept | utils.py:107-109 | with nothing to delete a column is unchanged |
| Trips.SelectIsKeptRows | utils.py:107-109 | the filtered column is exactly the kept rows in their original order |
| Trips.DeleteIndexes | utils.py:101-105 | the indexes to delete are ascending, in range, and exactly the rows not kept |
| Trips.DeleteStep | utils.py:108-109 | deleting the highest remaining index keeps the rows above it filtered |
| Trips.KeptPrefix | utils.py:108-109 | once every remaining index is kept the deletion is done |
| Trips.DeleteDescending | utils.py:108-109 | `del col[index]` over the indexes in descending order leaves exactly the kept rows |
| Trips.OdData | utils.py:100-111 | the filtered table has the same columns as the input |
| Trips.GetODData | utils.py:84-111 | KeyError when the mask loop reads a missing column, under the short-circuit condition of `MaskRows` and no other; otherwise every column filtered by the same rows of the copy, and the input is a value and unchanged |
| Trips.OdDataRows | utils.py:100-111 | every column of the result has one row per kept index, copied from the input, so the columns stay equal in length; a row is present exactly when it matches |
| Trips.GetLambdaMLE | utils.py:266-270 | KeyError without the pickup column, ZeroDivisionError on a zero window or slot; lambdaMin * window = count, lambdaSlots = lambdaMin * slot, both non-negative for positive lengths |
| Trips.AddedSeparately | utils.py:125-131 | the hours and the minutes of an offset added to the start one by one: a result, when there is one, is a valid clock whose minute of the day is the start's plus the offset; otherwise ValueError |
| Trips.Map2Time | utils.py:114-132 | hour = start hour + floor(tp*s/60), minute = start minute + (tp*s mod 60) with the remainder in [0, 60); ValueError exactly when the hour or the minute is out of range |
| Trips.Map2TimeCarried | utils.py:114-132 | the clock time tp*s minutes after the start: its minute of the day is start + tp*s, and ValueError when that leaves the day |
| Trips.Map2TimeOnTheHour | utils.py:125-131 | for a start on the hour the source's conversion and the carried one agree |
| Trips.Map2TimeMissesCarry | utils.py:127-131 | 40 minutes after 16:30 the source raises ValueError where 17:10 is meant |
| OdPairs.OdPair.constructor | odpair.py:37-47 | the given parameters, and four empty maps |
| OdPairs.OdPair.Clone | region.py:54 | a deep copy holds the same state as the original |
| OdPairs.OdPair.UpdateParams | odpair.py:50-62 | rate, slot and window replaced |
| OdPairs.OdPair.UpdateObsStarts | odpair.py:88-90 | obStarts becomes exactly the argument; no old key survives |
| OdPairs.OdPair.UpdateObsEnds | odpair.py:110-112 | obEnds becomes exactly the argument; no old key survives |
| OdPairs.OdPair.FutureStart | odpair.py:148 | rate * (t - u1): 0 at the end of the slot, non-negative after it for a non-negative rate |
| OdPairs.OdPair.FutureStartMonotone | odpair.py:148 | expected future starts grow with t for a non-negative rate |
| OdPairs.OdPair.Now | odpair.py:174 | rate * (u1 - u0): the rate itself for a one-point slot, non-negative for a non-negative rate |
| OdPairs.OdPair.EvalG | odpair.py:214 | G(t2 - t1) on the stored sample: IndexError exactly when it is empty, otherwise in [0, 1] |
| OdPairs.OdPair.EvalGMonotone | odpair.py:214 | G(t2 - t1) grows with t2 |
| OdPairs.OdPair.IntG | odpair.py:229 | the integral of G up to the time point: non-negative, 0 below the first sample |
| OdPairs.ScaledIntegral | odpair.py:159 | rate times the integral of G up to u: IndexError exactly when the sample is empty, non-negative for a non-negative rate, 0 below the first sample |
| OdPairs.ScaledIntegralMonotone | odpair.py:159 | for a non-negative rate that product is non-decreasing in u |
| OdPairs.OdPair.FutureEnds | odpair.py:159 | the scaled integral of G up to t - u1 for the pair's rate and sample: IndexError exactly when the sample is empty, non-negative for a non-negative rate, 0 below the first sample |
| OdPairs.OdPair.FutureEndsMonotone | odpair.py:159 | expected future ends grow with t for a non-negative rate |
| OdPairs.OdPair.CreateFutureStarts | odpair.py:120-123 | predStarts holds exactly the window points, each with rate * (t - u1) |
| OdPairs.OdPair.PredStartsMonotone | odpair.py:120-122 | the predicted starts are non-decreasing through the window |
| OdPairs.OdPair.CreateFutureEnds | odpair.py:132-135 | predEnds holds exactly the window points, each with rate * integral of G; IndexError exactly when the sample is empty and the window is not, after the map was cleared |
| OdPairs.OdPair.ProbEndEntries | odpair.py:189-192 | every termination probability lies in [0, 1], and the last entry of each list is G(0) |
| OdPairs.OdPair.GetProbEnd | odpair.py:188-197 | a list for every window point tau, of tau - window[0] + 1 entries, entry j being G(tau - (window[0] + j)); IndexError exactly when the sample is empty and the window is not |
| Regions.Parts | region.py:119-120 | the chosen map of every OD pair, in order |
| Regions.Accumulate | region.py:114-121 | zero at every window point plus every pair's count there; KeyError exactly when some pair has a key outside the window |
| Regions.SumAtMonotone | region.py:158-166 | region totals are non-decreasing in t when every pair's map is |
| Regions.SumAtNonneg | region.py:114-121 | region totals of non-negative counts are non-negative |
| Regions.Outgoing | region.py:81-83 | the pairs with origin == region, and only those |
| Regions.Incoming | region.py:85-87 | the pairs with destination == region, and only those |
| Regions.SumNowIsRates | region.py:204-206 | for a one-point slot the region's current demand is the sum of its outgoing rates, non-negative |
| Regions.IncomingDistinct | region.py:85-87 | filtering keeps the (origin, destination) keys distinct |
| Regions.SelfLoop | region.py:220-221 | the position of the pair (region, region) among the incoming ones, or none |
| Regions.CloneAll | region.py:54 | one fresh copy per pair, field for field equal to it, and distinct (origin, dest) keys stay distinct |
| Regions.Region.constructor | region.py:40-54 | the given slot and window, empty maps and zero totals; outOD and inOD drawn from fresh deep copies of the pairs, so the caller's pairs are not changed |
| Regions.Region.UpdateParams | region.py:57-67 | slot and window replaced |
| Regions.Region.InitializeODs | region.py:70-88 | outOD is exactly the outgoing pairs, inOD exactly the incoming ones; the self-loop pair is in both |
| Regions.Region.UpdateObsStarts | region.py:114-122 | obStarts[t] = the sum over outOD of the observed starts at t, 0 if none, on exactly the window points; KeyError when a pair's key leaves the window |
| Regions.Region.UpdateObsEnds | region.py:142-150 | obEnds[t] = the sum over inOD of the observed ends at t, on exactly the window points; KeyError when a pair's key leaves the window |
| Regions.Region.CreateFutureStarts | region.py:158-166 | predStarts[t] = the sum over outOD of the predicted starts at t, on exactly the window points; KeyError as above |
| Regions.Region.CreateFutureEnds | region.py:175-182 | predEnds[t] = the sum over inOD of the predicted ends at t, on exactly the window points; KeyError as above |
| Regions.Region.LoadProcess | region.py:191-194 | load[t] = predStarts + obStarts - predEnds - obEnds at every window point, returned with the four maps unchanged; KeyError when a map lacks a window point |
| Regions.Region.NowStart | region.py:204-207 | nowSt = the sum of now() over outOD |
| Regions.Region.NowEnd | region.py:219-224 | nowE and the lists come only from the self-loop pair; without it nowE = 0 and the lists are untouched; an empty sample raises IndexError, with the lists still untouched |
| Network.SlotsAndWindows | network.py:76-82 | slot k is (t, t+1) and window k is (t+1, t+1+L), for t = first + k below maxTimePt - L; every window opens where its slot closes and ends by maxTimePt |
| Network.Aged | network.py:126-128 | the aging of one map for the slot (t, t + 1): every point from t + 1 to maxTimePt loses the count at t; the count at t itself, the one subtracted, stays as it was |
| Network.AgeMap | network.py:126-128 | the aging of one map: every point in [slot[1], maxTimePt] loses the count at slot[0], the others are unchanged |
| Network.AgedCountsSince | network.py:126-128 | on cumulative counts, aged counts after the slot are non-negative and still non-decreasing, and the earlier points are unchanged |
| Network.AgedTwice | network.py:124-128 | aging twice equals aging once exactly when the count at slot[0] is 0 or no point follows the slot |
| Network.AgeAll | network.py:124-128 | every pair's map aged for the slot |
| Network.Bumped | network.py:189-192 | one ride counted from `from` on: the same points, each count the same or one higher, and the points before `from` unchanged |
| Network.AddSuffix | network.py:189-192 | one more ride counted at every point from the chosen one to maxTimePt |
| Network.BumpedNonDecreasing | network.py:189-192 | the increment adds 1 exactly from the chosen point on and keeps cumulative counts non-decreasing |
| Network.Restrict | network.py:136-137 | keys exactly the window points, values copied from the full map |
| Network.ExtractWindow | network.py:136-137 | the window's part of one map; KeyError exactly when a window point is missing |
| Network.ExtractAll | network.py:134-137 | every pair's window part; KeyError exactly when the window leaves the horizon |
| Network.ZeroLedger | network.py:111-117 | exactly the pairs of regions 1..N, each with every point first..maxTimePt, all counts 0 |
| Network.Ledger.constructor | network.py:111-117 | a zero count for every pair of regions 1..N and every point first..maxTimePt |
| Network.Ledger.Age | network.py:124-128 | every pair's starts and ends aged; KeyError before any change when slot[0] precedes the horizon; the ledger keeps its shape |
| Network.Ledger.Extract | network.py:131-137 | window parts of all starts and ends; KeyError exactly when the window leaves the horizon |
| Network.BumpPair | network.py:189-192 | the pair's counts from `from` to maxTimePt each one higher, every other pair and point unchanged, and the ledger keeps its shape |
| Network.Ledger.RecordTrip | network.py:187-192 | endchoice = startchoice + (TimeOut - TimeIn); one more start from startchoice and one more end from endchoice to maxTimePt, nothing else changed; KeyError when a count is missing, with the starts already bumped when only the ends fail |
| Network.Clamped | network.py:174-177 | entries <= 0 become 1e-8, the others stay |
| Network.Sanitised | network.py:174-178 | the repaired vector: as long as the input, every entry from index 1 on positive, and a positive entry kept as it is |
| Network.SanitisedIsDistribution | network.py:174-178 | after the repair the vector sums exactly to 1, every entry from index 1 on is positive, and only entry 0 absorbs the correction |
| Network.Sanitise | network.py:174-178 | the in-place repair of the array; IndexError exactly when it is empty, after the clamping loop did nothing |
| Network.Savings | network.py:33 | one saving per probability |
| Network.SavingsInvert | network.py:33 | beta_c * sav_k + beta_d * k = log p_k - log p_0 for any log, so sav_0 = 0 |
| Network.RegionSavings | network.py:30-36 | the savings list and the revenue sum of one region; ZeroDivisionError exactly when beta_c = 0 and the list is non-empty |
| Network.SlotSavings | network.py:26-37 | for one slot, each region 1..N's savings and the mean of their revenues (none for no region); the error of the first failing region, and an error exactly when some region fails |

## Left out

- `region.optimize` (region.py:227-250): it builds and solves a cvxpy program. The solver and its status are foreign code. The probabilities it returns are the input of `Network.Sanitise` and `Network.SlotSavings`.
- `readCSV` (utils.py:18-42): file input.
- `addTimeStamp` and the timestamp-string splitting in `getOrderedService` (utils.py:45-80, 234-243): string parsing with float `math.ceil`. `Empirical.GetOrderedService` starts from durations already in minutes.
- `processOutput` and `avgNewz` (network.py:41-64): numpy reshaping and plotting helpers.
- The `print` calls, and the driver's outer loop, which reads the table and wires the fragments together.
- The global `numRegions` of `getSavings`: it is an argument.
- `np.random.choice` (network.py:187): the drawn departure point is the `startchoice` argument of `Network.Ledger.RecordTrip`. That it is drawn from the window points is therefore not modelled.
- `np.log`: a parameter `log: real -> real`, with no property assumed.
- Floating point: all arithmetic is over `real`. Round-off, NaN and infinities are not modelled.
- Network.SlotSavings: models one slot of `getSavings`. The loop over slots only repeats it for independent inputs. The NaN that `np.mean` returns for no region is `None`.
- Trips.Map2Time: returns the clock value. The string "h:m" built from it is not modelled.
- OdPairs.OdPair.GetProbEnd: returns the lists as they are built. The final wrapping of each list into a one-column numpy array (odpair.py:193-196) is not modelled.
- Regions.Accumulate: walks the window points and looks each up in the pair's map, after checking that no key leaves the window. The source walks the map's own keys. Both give the same totals and the same KeyError condition. The model raises before touching the accumulator, so it does not model the partly filled region map left behind when the source raises mid-loop.
- Regions.Region.LoadProcess: on KeyError it does not model the partly filled `load` map.
- Regions.Region.NowEnd: requires the pairs' (origin, destination) keys to be distinct. They are dictionary keys in the source, which makes this hold.
- Regions: a dictionary of OD pairs is the sequence of its values, in insertion order.
- Trips.GetODData: requires every column to have the same number n of rows, as the table the driver builds does. A ragged table, which would make `del` raise IndexError, is not modelled.
- `Network.Ledger.Age` and `Network.Ledger.Extract`: the source processes starts and ends of one pair in the same loop. The model processes all starts, then all ends. The maps are independent, so results and errors are the same.

## Findings

| source | as written | input that shows it | evidently intended | confidence | as-written member | corrected member |
|---|---|---|---|---|---|---|
| utils.py:125-131 | the minute offset tp*s mod 60 is added to the start minute without carrying into the hour, so `time(hour, minute)` rejects minutes of 60 or more | timePt = 4, slotInMinutes = 10, start 16:30: 30 + 40 = 70 minutes raises ValueError | the clock time tp*s minutes after the start, 17:10 | medium, not executed (the default start, 16:00, is on the hour, where both agree) | Trips.Map2Time, Trips.Map2TimeMissesCarry | Trips.Map2TimeCarried, Trips.Map2TimeOnTheHour |
