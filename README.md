# Sliding-window throttle

A Dafny model of the Go package `throttle`: a rate limiter over a sliding
window of `windowMillis` milliseconds. It admits a call only while the
*estimated* load of the window plus the call's weight stays within `limit`.
The weight actually admitted in some window of that length can exceed
`limit` (`SlidingWindowOvershoot`). Time is cut into fixed periods of one
window each. Two counters take turns by the parity of the period index: one is the current
period and the other the previous one. A call at millisecond `now` does four
things:

1. It maps `now` to the period index `now / w`, to the slot `(now / w) % 2`
   and to the offset `now % w` inside the period.
2. It resets the current slot when the period index has moved past the last
   one seen. It resets the other slot as well only when more than two periods
   have passed.
3. It estimates the load as the current count plus the previous count
   scaled by `(w - offset) / w`, truncated to an integer.
4. It admits the call exactly when estimate plus weight is at most the limit,
   and then adds the weight to the current slot.

Everything is in `throttle.dfy`, module `Throttle`:

- pure functions for the period, slot, offset and proration arithmetic;
- the algorithm as a function `Step` on an explicit `State` (the two counts
  and the last period index), with lemmas about one call and about sequences
  of calls (`Run`);
- beside it, `StepIntended` with the intended roll-over threshold and
  `StepInt32` with Go's int32 arithmetic, each related to `Step` by lemmas;
- the class `Throttle`. Its fields are `count: array<int>` of length 2,
  `last`, and the immutable `windowMillis` and `limit`. Its methods `AllowN`
  and `Allow` update the array and `last` in place, and are proved to do
  exactly what `Step` says.

The clock is a parameter: `AllowN(now, wt)` takes the millisecond timestamp
that the Go code reads from `time.Now().UnixMilli()`. The floating-point
expressions of throttle.go:49-52 and 66 are replaced by their exact integer
meaning: `divX2 == now / w`, `diff == now % (2w)`, `current == diff / w` and
`mod == diff % w`. The `int32(...)` conversion of the prorated count
truncates toward zero (`TruncDiv`).

The main results are these:

- Both counters stay within `[0, max(limit, 0)]` across any sequence of calls
  with non-negative weights (`RunBounded`). With the model's exact-integer
  admission test the counters therefore never overflow int32. The Go code
  evaluates that test in int32, where it can wrap (see Findings).
- `last` never decreases (`RunLast`).
- When timestamps never decrease, the estimate a call sees is never above
  `max(limit, 0)` (`RunSettled`, `EstimateWithinLimit`). So, for a limit of at
  least 0, a zero-weight call is never rejected (`ZeroWeightNeverRejected`).
- When timestamps never decrease, the current counter holds exactly the
  weight admitted since the current period began, i.e. the total weight of
  all admitted calls in that period (`RunCurrentSlot`). With the intended
  roll-over threshold described below, the other counter also holds exactly
  the weight admitted in the period before (`RunIntendedSlots`). With the
  code's threshold it can hold an older period's weight instead
  (`RunKeepsStalePreviousSlot`).
- The bound on the estimate is not a bound on the weight admitted in every
  window of `windowMillis` milliseconds. With window 100 ms and limit 10,
  10 units at 99 ms and 10 more at 198 ms are both admitted, because the
  previous count is prorated down to 0 (`SlidingWindowOvershoot`).

**The roll-over threshold.** In the two-bucket sliding window, the previous
slot must be cleared once more than one period has passed since the last
call; the rotation test expects exactly that (throttle_test.go:223-226). The
code clears it only when the period index exceeds `last + 2`
(throttle.go:59). `Step`, and so the class, follow the code. After an idle
gap of exactly two periods, the previous slot still holds the count of
period `last - 1`, and that count is charged against the new period: see
`StaleSlotAfterTwoPeriodGap`. `RotationScenario` replays the rotation test
with explicit timestamps: the counter sum comes out as 2 at the end, where
the test expects 1. Beside it, `RolloverIntended` and `StepIntended` use the
threshold `last + 1`. For them a call more than one period after the last
one starts from two empty slots (`IntendedRolloverClearsStale`), the two
versions differ only at a gap of exactly two periods
(`IntendedDiffersOnlyAtTwoPeriodGap`), and the same replay ends with 1
(`IntendedRotationSteps`). Over whole runs, the intended threshold keeps
the other counter at exactly the weight admitted in the previous period
(`RunIntendedSlots`), and the code's threshold does not
(`RunKeepsStalePreviousSlot`). This is the second row under Findings.

Zero-weight calls get no special treatment in the code: they trigger the
roll-over, and they are admitted only if the estimate is within the limit.
The model does the same.

A timestamp earlier than the last period seen (a clock that went backwards)
is modelled as the code handles it: nothing is reset, and the slot with the
parity of the earlier period is used as the current slot. The model computes
the estimate in exact integers, though.

**int32 arithmetic.** In Go, `sum`, `sum+wt` and `count.Add(wt)`
(throttle.go:67-71) are int32 and wrap around. `StepInt32` is `Step` with
that arithmetic. It takes the same step as `Step` whenever the counters are
non-negative and the exact estimate plus the weight fits in int32
(`StepInt32AgreesInRange`). `sum` itself can wrap in two ways:

- after the `sum+wt` wrap of the first Findings row has admitted an
  overweight call and pushed a counter close to 2^31-1. This can happen with
  a non-decreasing clock (`SumWrapsWithMonotoneClock`);
- without any earlier wrap, after the clock goes backwards with a limit
  above 2^30 (`SumWrapsAfterClockRegression`, third row under Findings).

In the model, where every admission test is exact, a non-decreasing clock
keeps the estimate within `max(limit, 0)` (`EstimateWithinLimit`), so
there the estimate cannot leave int32.

## Model

| member | source | states |
|---|---|---|
| `Throttle.PeriodIndex` | throttle.go:49-50 | `divX2` is the index `p` of the period containing `now`: `p * w <= now < (p + 1) * w`, and `p >= 0` |
| `Throttle.Diff` | throttle.go:52 | `diff` lies in `[0, 2w)` and equals `now - floor(now / 2w) * 2w`, so its int32 conversion cannot overflow when `w < 2^30` |
| `Throttle.CurrentSlot` | throttle.go:53 | the slot `diff / w` is 0 or 1 and is the parity of the period index |
| `Throttle.Offset` | throttle.go:65 | `mod == now % w`, it lies in `[0, w)`, and `now == p * w + mod` |
| `Throttle.SlotAndOffset` | throttle.go:48-53 | the two-period remainder gives the same slot as `(now / w) % 2` and the same offset as `now % w` |
| `Throttle.TruncDiv` | throttle.go:67 | the conversion `int32(...)` of the prorated count truncates toward zero: for `a >= 0` the result `q` is non-negative with `q * d <= a < q * d + d`; for `a < 0` it is at most 0 with `q * d - d < a <= q * d` |
| `Throttle.Prorate` | throttle.go:66-67 | `proratedPrev`: the previous count scaled by `(w - mod) / w` and truncated; for a non-negative count it lies in `[0, count]` (its exact cases are in `ProrateBounds`) |
| `Throttle.ProrateBounds` | throttle.go:66-67 | for a non-negative count, the prorated count lies in `[0, count]`; it equals the count exactly when the count is 0 or the offset is 0 |
| `Throttle.ProrateAntitone` | throttle.go:66 | later in a period, the prorated previous count is never larger |
| `Throttle.Rollover` | throttle.go:56-62 | the roll-over check as written, on the two counters; two counters remain. Which ones it resets is stated by `RolloverSlots` |
| `Throttle.RolloverSlots` | throttle.go:56-62 | with no period advance nothing is reset; on an advance the current slot is 0; the other slot is 0 if more than two periods passed and untouched otherwise |
| `Throttle.RolledAt` | throttle.go:48-62 | the counters a call at `now` works with: `Rollover` at the period and slot of `now`; two counters remain |
| `Throttle.Load` | throttle.go:65-67 | `sum` from the counters after the roll-over: for non-negative counters it is at least the current count and at most the sum of both counts |
| `Throttle.EstimateAt` | throttle.go:56-67 | the estimate a call at `now` computes, roll-over included: for non-negative counters it lies between 0 and the sum of the counters it started from |
| `Throttle.Step` | throttle.go:47-73 | one `AllowN` call on explicit state: roll-over, estimate, then admit and add `wt` or reject; two counters remain. Its behaviour is stated by the `Step*` lemmas |
| `Throttle.StepLast` | throttle.go:56-62 | after a call, `last == max(old last, now / w)`, so `last` never decreases |
| `Throttle.StepAdmitted` | throttle.go:67-72 | an admitted call had `estimate + wt <= limit`; the current count grows by exactly `wt` and the other keeps its post-roll-over value; the estimate recomputed at the same `now` is `estimate + wt`, still within the limit |
| `Throttle.StepRejected` | throttle.go:68-70 | a call is rejected exactly when `estimate + wt > limit`; then the counts are the post-roll-over counts, with no weight added |
| `Throttle.StepPreservesBounds` | throttle.go:56-72 | with a non-negative weight, both counters stay in `[0, max(limit, 0)]` |
| `Throttle.SettledRollover` | throttle.go:57 | once `last` is at least the period of `now`, the roll-over check at `now` changes no counter |
| `Throttle.RunBounded` | throttle.go:56-72 | both counters stay in `[0, max(limit, 0)]` across any sequence of calls with non-negative weights |
| `Throttle.RunLast` | throttle.go:56-62 | across a sequence of calls `last` never decreases and ends at least at the period of every call |
| `Throttle.InitSettled` | throttle.go:34-39 | a fresh throttle (`Init`: counts 0, `last` 0) is bounded, and settled at time 0 |
| `Throttle.EstimateWithinLimit` | throttle.go:56-68 | after the latest call, at `tau`, a call at any `now >= tau` sees an estimate of at most `max(limit, 0)` |
| `Throttle.StepKeepsSettled` | throttle.go:47-73 | a call at `now >= tau` leaves `last` at the period of `now` and the estimate at `now` within `max(limit, 0)` |
| `Throttle.RunSettled` | throttle.go:47-73 | over any sequence of calls with non-decreasing timestamps, the counters stay bounded and the estimate at the last call's time stays within `max(limit, 0)` |
| `Throttle.ZeroWeightNeverRejected` | throttle.go:67-72 | from a fresh throttle and non-decreasing timestamps, with `limit >= 0`, the estimate is within the limit and a zero-weight call is always admitted |
| `Throttle.SlidingWindowOvershoot` | throttle.go:65-68 | with window 100 ms and limit 10, calls of weight 10 at 99 ms and at 198 ms, less than one window apart, are both admitted: the bound is on the estimate, not on every window |
| `Throttle.AdmittedIn` | throttle.go:68-72 | the total weight of the calls of a run that are admitted and fall in a given period; it is never negative |
| `Throttle.RunCurrentSlotFrom` | throttle.go:56-72 | with a non-decreasing clock, `last` ends at the period of the last call, and the current counter holds what it held before (if the period did not change) plus the weight admitted in that period |
| `Throttle.RunCurrentSlot` | throttle.go:56-72 | from a fresh throttle with a non-decreasing clock, the current counter holds exactly the weight admitted in the current period |
| `Throttle.StaleSlotAfterTwoPeriodGap` | throttle.go:59 | when the period index is exactly `last + 2`, the current slot is reset, but the previous slot keeps the count of period `last - 1` |
| `Throttle.WrapAdmitsOverweight` | throttle.go:67-68 | after one admitted unit, the int32 comparison admits weight 2^31-1 against limit 10 because the sum wraps; the model's comparison rejects it |
| `Throttle.Wrap32` | throttle.go:67-71 | two's-complement wrap into int32: the result is in int32 range, congruent to the input modulo 2^32, and equal to the input when the input is in range |
| `Throttle.AdmitsInt32` | throttle.go:68 | the comparison `sum+wt > t.limit` evaluated in int32: whenever `sum + wt` fits in int32 it agrees with the exact `sum + wt <= limit` |
| `Throttle.StepInt32` | throttle.go:47-73 | one call with Go's int32 `sum`, `sum+wt` and `count.Add(wt)`: `last` is `max(last, now / w)`, and a rejected call leaves the post-roll-over counts; two counters remain |
| `Throttle.StepInt32AgreesInRange` | throttle.go:67-71 | for non-negative counters and weight, whenever the exact estimate plus the weight fits in int32, the int32 step and `Step` are equal |
| `Throttle.SumWrapsWithMonotoneClock` | throttle.go:67-71 | with limit 10 and calls at 5000, 6000 and 6000 ms: the int32 step admits 2^31-2 units (which `Step` rejects), after which the exact estimate is 2^31+8 and the int32 `sum` wraps to -2^31+8, so one more unit is admitted |
| `Throttle.SumWrapsAfterClockRegression` | throttle.go:67-68 | with limit 2^31-1, admitting 2^31-1 units at 0 ms and 2145336164 units at 1999 ms, a call at 0 ms sees an exact estimate of 4292819811; the int32 `sum` wraps to -2147485 and the int32 test would admit 1000 more units, which the model rejects |
| `Throttle.StepIntended` | throttle.go:47-73 | one call as `Step` but with the roll-over threshold `last + 1` the rotation test expects; two counters remain. Its behaviour is stated by the `Intended*` lemmas |
| `Throttle.IntendedRolloverClearsStale` | throttle.go:56-62 | with the intended threshold, a call more than one period after the last one sees both slots at 0, is admitted exactly when `wt <= limit`, and leaves only its own weight counted |
| `Throttle.IntendedDiffersOnlyAtTwoPeriodGap` | throttle.go:59 | the intended and the as-written call agree unless the period index is exactly `last + 2` |
| `Throttle.IntendedRotationSteps` | throttle_test.go:195-227 | the rotation test replayed with the intended threshold ends with counts `[1,0]`, the sum 1 the test expects |
| `Throttle.RolloverIntended` | throttle.go:56-62 | the roll-over check with threshold `last + 1`; two counters remain. Its effect is stated by `IntendedRolloverClearsStale` and `IntendedDiffersOnlyAtTwoPeriodGap` |
| `Throttle.EstimateIntendedAt` | throttle.go:56-67 | the estimate after the intended roll-over: for non-negative counters it lies between 0 and the sum of the counters it started from |
| `Throttle.RunIntended` | throttle.go:47-73 | a sequence of calls performed with the intended threshold; two counters remain |
| `Throttle.AdmittedIntendedIn` | throttle.go:68-72 | `AdmittedIn` for runs with the intended threshold; never negative |
| `Throttle.StepIntendedHeld` | throttle.go:56-72 | an intended call in period `q >= last` sets `last` to `q`, adds its admitted weight to what is held for `q`, and keeps what is held for `q - 1` and every later period |
| `Throttle.RunIntendedHeldFrom` | throttle.go:56-72 | with the intended threshold and a non-decreasing clock, `last` never decreases, and for the last period `L` and for `L - 1` the final state holds what the start state held plus the weight admitted in that period |
| `Throttle.RunIntendedSlots` | throttle.go:56-72 | from a fresh throttle with the intended threshold and a non-decreasing clock, the current counter holds exactly the weight admitted in the current period and the other counter exactly the weight admitted in the period before |
| `Throttle.RunKeepsStalePreviousSlot` | throttle.go:59 | after calls at 100, 200 and 400 ms (window 100 ms), the code's threshold leaves counts `[1,1]` in period 4 although nothing was admitted in period 3; the intended threshold leaves `[1,0]` |
| `Throttle.Throttle.NewThrottle` | throttle.go:33-39 | the window and limit are stored as given; both counts and `last` start at 0 |
| `Throttle.Throttle.AllowN` | throttle.go:46-73 | the new counts, `last` and the answer are exactly those of `Step` on the old state. `last == max(old last, now / w)`; it answers true exactly when the old estimate plus `wt` is within the limit; after an admission the estimate at `now` is within the limit; the counter bounds are kept. `windowMillis` and `limit` are constant fields |
| `Throttle.Throttle.Allow` | throttle.go:41-44 | behaves exactly as `AllowN(now, 1)` |
| `Throttle.RotationSteps` | throttle.go:47-73 | the six calls of the rotation test, one `Step` each: all admitted, with counts `[1,0]`, `[2,0]`, `[3,0]`, `[3,1]`, `[1,1]`, `[1,1]` and `last` 10, 10, 10, 11, 12, 14 |
| `Throttle.RotationScenario` | throttle_test.go:195-227 | replaying the rotation test with timestamps 1000, 1100, 1200 and 1400 ms gives counter sums 3, 4, 2, 2; the test expects 1 at the end |

## Left out

- The clock (`time.Now().UnixMilli()`, throttle.go:48) is not modelled: `now` is a parameter of `AllowN` and `Allow`.
- The atomics (`atomic.Int32`, `atomic.Int64`, throttle.go:29-30) and the interleavings they permit are not modelled. The load, compare and store at throttle.go:56-62 is not one atomic step in Go. Each call is modelled as one sequential step on exclusively owned state.
- Float64 rounding at throttle.go:49-52 and 66 is not modelled: these expressions are replaced by exact integer division and remainder.
- Throttle.Throttle.AllowN: requires `0 <= wt <= 2^31-1`. Negative weights are accepted by the Go code but are not a defined use.
- Throttle.Throttle.AllowN: requires `now >= 0`. Timestamps before 1970, where Go's float floor and truncation differ, are not modelled. No upper bound on `now` or `last` as int64 is modelled.
- Throttle.Throttle.AllowN: the comparison `sum+wt > t.limit` and `count.Add(wt)` wrap around in int32 in Go. The class uses exact integers. Within its precondition, and with the exact test, the counters provably stay within int32 (`RunBounded`). The Go arithmetic is modelled separately by `StepInt32`, and the wrap of the comparison is shown under Findings.
- Throttle.Throttle.AllowN: `sum` itself (throttle.go:67) is an int32 in Go and wraps when `count[current]` plus the prorated previous count exceeds 2^31-1. This can happen once a wrapped `sum+wt` has admitted an overweight call, even with a non-decreasing clock (`SumWrapsWithMonotoneClock`), or, with no earlier wrap, after the clock goes backwards with a limit above 2^30 (`SumWrapsAfterClockRegression`). The class computes the estimate exactly and does not reproduce this wrap; `StepInt32` does.
- Throttle.Throttle.NewThrottle: requires `0 < windowMillis < 2^30` and an int32 limit. The Go constructor checks nothing. A zero window would divide by zero at throttle.go:53, and a window of 2^30 or more overflows `2*t.windowMillis` in int32.
- The mutex-based variant that throttle_test.go is written against (`New(time.Duration, int)`, field `counter`) is not part of this model. The wall-clock, goroutine, random and benchmark tests are not modelled. Only the rotation test is replayed, with explicit timestamps (`RotationScenario`).

## Findings

| source | as written | input that shows it | evidently intended | confidence | as-written member | corrected member |
|---|---|---|---|---|---|---|
| throttle.go:67-68 | `sum+wt` is computed in int32, so a large weight wraps to a negative sum that passes `> t.limit` | `NewThrottle(1000, 10)`, then `Allow()` at 5000 ms (count 1), then `AllowN(2147483647)` at 5000 ms: `1 + 2147483647` wraps to `-2147483648 <= 10`, so the call is admitted and the counter wraps negative | a weight that does not fit under the limit is rejected | not executed | `Throttle.WrapAdmitsOverweight` | `Throttle.StepAdmitted` |
| throttle.go:59 | the other slot is reset only when `divX2 > last+2`, so after an idle gap of exactly two periods it still holds the count of period `last-1` | `Allow()` three times at 1000 ms, once at 1100 ms, once at 1200 ms and once at 1400 ms (window 100 ms, limit 100): the counters sum to 2 where throttle_test.go:223-226 expects 1 | reset the other slot once more than one period has passed (`divX2 > last+1`) | not executed | `Throttle.StaleSlotAfterTwoPeriodGap` | `Throttle.IntendedRolloverClearsStale` |
| throttle.go:67 | `sum` is an int32 and wraps when the two counts add up past 2^31-1 | `NewThrottle(1000, 2147483647)`, `AllowN(2147483647)` at 0 ms, `AllowN(2145336164)` at 1999 ms, then `AllowN(1000)` at 0 ms: `sum` wraps to -2147485 and the call is admitted, wrapping `count[0]` | an estimate above the limit rejects the call | not executed | `Throttle.SumWrapsAfterClockRegression` | `Throttle.StepRejected` |
