/**
  A model of the sliding-window rate limiter of package `throttle`.

  Time is cut into periods of `windowMillis` milliseconds. Two counters
  alternate between the roles "current period" and "previous period" by the
  parity of the period index. A call at millisecond `now` estimates the load
  of the sliding window ending at `now` as the current counter plus the share
  of the previous counter that still overlaps the window, and admits a weight
  only if estimate plus weight stays within the limit.

  The clock is a parameter (`now`), every floating-point expression of the
  Go code is replaced by its exact integer meaning, and each call is one
  sequential step on exclusively owned state.
*/
module Throttle {

  const INT32_MIN: int := -0x8000_0000
  const INT32_MAX: int := 0x7fff_ffff

  /** `2 * windowMillis` is computed in int32, so the window stays below 2^30. */
  const WINDOW_BOUND: int := 0x4000_0000

  function Max(a: int, b: int): (m: int) { if a < b then b else a }

  // ---------------------------------------------------------------------
  // Arithmetic helpers
  // ---------------------------------------------------------------------

  lemma MulNonneg(a: int, b: int)
    requires 0 <= a && 0 <= b
    ensures 0 <= a * b
  {
  }

  /** Euclidean division is determined by its quotient/remainder equation. */
  lemma DivModUnique(n: int, d: int, q: int, r: int)
    requires 0 < d && n == q * d + r && 0 <= r < d
    ensures n / d == q && n % d == r
  {
    var q', r' := n / d, n % d;
    assert n == q' * d + r';
    assert (q - q') * d == r' - r;
    if q > q' {
      MulNonneg(q - q' - 1, d);
    } else if q < q' {
      MulNonneg(q' - q - 1, d);
    }
  }

  lemma DivMonotone(a: int, b: int, d: int)
    requires 0 < d && a <= b
    ensures a / d <= b / d
  {
    var qa, qb := a / d, b / d;
    assert a == qa * d + a % d && b == qb * d + b % d;
    if qa > qb {
      MulNonneg(qa - qb - 1, d);
    }
  }

  /** Go's conversion `int32(x)` of a float truncates toward zero. */
  function TruncDiv(a: int, d: int): (q: int)
    requires 0 < d
    ensures 0 <= a ==> 0 <= q && q * d <= a < q * d + d
    ensures a < 0 ==> q <= 0 && a <= q * d && q * d - d < a
  {
    if a >= 0 then a / d else -((-a) / d)
  }

  // ---------------------------------------------------------------------
  // Mapping a timestamp to a period, a slot and an offset (throttle.go:48-53, 65)
  // ---------------------------------------------------------------------

  /** `divX2`: the index of the period that contains millisecond `now`. */
  function PeriodIndex(now: int, w: int): (p: int)
    requires 0 <= now && 0 < w
    ensures 0 <= p && p * w <= now < (p + 1) * w
  {
    now / w
  }

  /** `diff`: how far `now` lies into the current pair of periods. */
  function Diff(now: int, w: int): (d: int)
    requires 0 <= now && 0 < w
    ensures 0 <= d < 2 * w
    ensures d == now - (now / (2 * w)) * (2 * w)
  {
    now % (2 * w)
  }

  /** `current`: the slot of the period containing `now`, i.e. its parity. */
  function CurrentSlot(now: int, w: int): (c: int)
    requires 0 <= now && 0 < w
    ensures c == PeriodIndex(now, w) % 2
    ensures 0 <= c <= 1
  {
    SlotAndOffset(now, w);
    Diff(now, w) / w
  }

  /** `mod`: the offset of `now` into its period. */
  function Offset(now: int, w: int): (m: int)
    requires 0 <= now && 0 < w
    ensures m == now % w
    ensures 0 <= m < w
    ensures now == PeriodIndex(now, w) * w + m
  {
    SlotAndOffset(now, w);
    Diff(now, w) % w
  }

  lemma SlotAndOffset(now: int, w: int)
    requires 0 <= now && 0 < w
    ensures Diff(now, w) / w == (now / w) % 2
    ensures Diff(now, w) % w == now % w
  {
    var q, d := now / (2 * w), now % (2 * w);
    assert now == q * (2 * w) + d;
    if d < w {
      DivModUnique(now, w, 2 * q, d);
      DivModUnique(d, w, 0, d);
      DivModUnique(2 * q, 2, q, 0);
    } else {
      DivModUnique(now, w, 2 * q + 1, d - w);
      DivModUnique(d, w, 1, d - w);
      DivModUnique(2 * q + 1, 2, q, 1);
    }
  }

  // ---------------------------------------------------------------------
  // Proration (throttle.go:65-67)
  // ---------------------------------------------------------------------

  /**
    `proratedPrev`: the part of the previous period's count `prev` still
    inside the sliding window at offset `mod`, truncated as `int32(...)` does.
  */
  function Prorate(prev: int, w: int, mod: int): (r: int)
    requires 0 < w && 0 <= mod < w
    ensures 0 <= prev ==> 0 <= r <= prev
  {
    ScaledWithin(prev, w, mod);
    TruncDiv(prev * (w - mod), w)
  }

  /** The prorated count lies in [0, prev] and is all of it exactly at the period start. */
  lemma ProrateBounds(prev: int, w: int, mod: int)
    requires 0 < w && 0 <= mod < w && 0 <= prev
    ensures 0 <= Prorate(prev, w, mod) <= prev
    ensures Prorate(prev, w, mod) == prev <==> (prev == 0 || mod == 0)
  {
    if mod == 0 {
      DivModUnique(prev * w, w, prev, 0);
    } else if prev > 0 {
      ProrateBelow(prev, w, mod);
    }
  }

  lemma ScaledWithin(prev: int, w: int, mod: int)
    requires 0 < w && 0 <= mod < w
    ensures 0 <= prev ==> 0 <= TruncDiv(prev * (w - mod), w) <= prev
  {
    if 0 <= prev {
      MulNonneg(prev, w - mod);
      MulNonneg(prev, mod);
      assert prev * (w - mod) == prev * w - prev * mod;
      DivModUnique(prev * w, w, prev, 0);
      DivMonotone(prev * (w - mod), prev * w, w);
    }
  }

  lemma ProrateBelow(prev: int, w: int, mod: int)
    requires 0 < w && 0 < mod < w && 0 < prev
    ensures Prorate(prev, w, mod) < prev
  {
    MulNonneg(prev, w - mod);
    MulNonneg(prev - 1, mod - 1);
    assert prev * (w - mod) == prev * w - prev * mod;
    assert (prev - 1) * (mod - 1) == prev * mod - prev - mod + 1;
    assert prev * w - 1 == (prev - 1) * w + (w - 1);
    DivModUnique(prev * w - 1, w, prev - 1, w - 1);
    DivMonotone(prev * (w - mod), prev * w - 1, w);
  }

  /** Later in a period, less of the previous period's count is charged. */
  lemma ProrateAntitone(prev: int, w: int, m1: int, m2: int)
    requires 0 < w && 0 <= m1 <= m2 < w && 0 <= prev
    ensures Prorate(prev, w, m2) <= Prorate(prev, w, m1)
  {
    MulNonneg(prev, m2 - m1);
    MulNonneg(prev, w - m2);
    assert prev * (w - m1) - prev * (w - m2) == prev * (m2 - m1);
    DivMonotone(prev * (w - m2), prev * (w - m1), w);
  }

  // ---------------------------------------------------------------------
  // The algorithm on explicit state
  // ---------------------------------------------------------------------

  /** The mutable part of a throttle: the two counters and the last period seen. */
  datatype State = State(count: seq<int>, last: int)

  /** The answer of one `AllowN` call and the state it leaves behind. */
  datatype Decision = Decision(allowed: bool, next: State)

  /** One call: a timestamp in milliseconds and a weight. */
  datatype Call = Call(now: int, wt: int)

  /** The state of a freshly constructed throttle. */
  const Init: State := State([0, 0], 0)

  /** `count` holds two non-negative counters, none above the (non-negative part of the) limit. */
  predicate Bounded(s: State, limit: int)
  {
    |s.count| == 2 &&
    0 <= s.count[0] <= Max(limit, 0) &&
    0 <= s.count[1] <= Max(limit, 0)
  }

  /**
    The counters after the roll-over check for period `p` whose slot is
    `cur` (throttle.go:56-62). The other slot is reset only when more than
    two periods have passed, exactly as the code is written.
  */
  function Rollover(count: seq<int>, last: int, p: int, cur: int): (c: seq<int>)
    requires |count| == 2 && 0 <= cur <= 1
    ensures |c| == 2
  {
    if p > last then
      var c := count[cur := 0];
      if p > last + 2 then c[1 - cur := 0] else c
    else count
  }

  /** Which counters the roll-over check resets, and which it keeps. */
  lemma RolloverSlots(count: seq<int>, last: int, p: int, cur: int)
    requires |count| == 2 && 0 <= cur <= 1
    ensures |Rollover(count, last, p, cur)| == 2
    ensures p <= last ==> Rollover(count, last, p, cur) == count
    ensures p > last ==> Rollover(count, last, p, cur)[cur] == 0
    ensures p > last + 2 ==> Rollover(count, last, p, cur)[1 - cur] == 0
    ensures p <= last + 2 ==> Rollover(count, last, p, cur)[1 - cur] == count[1 - cur]
  {
  }

  /** The counters a call at `now` works with, after its roll-over check. */
  function RolledAt(s: State, w: int, now: int): (c: seq<int>)
    requires |s.count| == 2 && 0 <= now && 0 < w
    ensures |c| == 2
  {
    Rollover(s.count, s.last, PeriodIndex(now, w), CurrentSlot(now, w))
  }

  /**
    `sum`: the load of the sliding window ending at `now`, computed from the
    counters `c` a call at `now` sees after its roll-over check: the current
    count plus the prorated previous count.
  */
  function Load(c: seq<int>, w: int, now: int): (e: int)
    requires |c| == 2 && 0 <= now && 0 < w
    ensures 0 <= c[0] && 0 <= c[1] ==> c[CurrentSlot(now, w)] <= e <= c[0] + c[1]
  {
    var cur := CurrentSlot(now, w);
    c[cur] + Prorate(c[1 - cur], w, Offset(now, w))
  }

  /** The load a call at `now` estimates, roll-over included; it never exceeds the counters it started from. */
  function EstimateAt(s: State, w: int, now: int): (e: int)
    requires |s.count| == 2 && 0 <= now && 0 < w
    ensures 0 <= s.count[0] && 0 <= s.count[1] ==> 0 <= e <= s.count[0] + s.count[1]
  {
    RolloverSlots(s.count, s.last, PeriodIndex(now, w), CurrentSlot(now, w));
    Load(RolledAt(s, w, now), w, now)
  }

  /** One `AllowN(wt)` call at millisecond `now` (throttle.go:47-73), on explicit state. */
  function Step(s: State, w: int, limit: int, now: int, wt: int): (d: Decision)
    requires |s.count| == 2 && 0 <= now && 0 < w
    ensures |d.next.count| == 2
  {
    var p := PeriodIndex(now, w);
    var cur := CurrentSlot(now, w);
    var rolled := RolledAt(s, w, now);
    var last := if p > s.last then p else s.last;
    if EstimateAt(s, w, now) + wt > limit then
      Decision(false, State(rolled, last))
    else
      Decision(true, State(rolled[cur := rolled[cur] + wt], last))
  }

  /** `last` becomes the larger of its old value and the current period index. */
  lemma StepLast(s: State, w: int, limit: int, now: int, wt: int)
    requires |s.count| == 2 && 0 <= now && 0 < w
    ensures Step(s, w, limit, now, wt).next.last == Max(s.last, PeriodIndex(now, w))
    ensures Step(s, w, limit, now, wt).next.last >= s.last
  {
  }

  /**
    An admitted call had room for its weight; it adds exactly `wt` to the
    current counter and leaves the other one at its post-roll-over value, so
    the estimate recomputed at the same instant is still within the limit.
  */
  lemma StepAdmitted(s: State, w: int, limit: int, now: int, wt: int)
    requires |s.count| == 2 && 0 <= now && 0 < w
    requires Step(s, w, limit, now, wt).allowed
    ensures EstimateAt(s, w, now) + wt <= limit
    ensures var cur, d := CurrentSlot(now, w), Step(s, w, limit, now, wt);
      d.next.count[cur] == RolledAt(s, w, now)[cur] + wt &&
      d.next.count[1 - cur] == RolledAt(s, w, now)[1 - cur]
    ensures EstimateAt(Step(s, w, limit, now, wt).next, w, now) == EstimateAt(s, w, now) + wt
    ensures EstimateAt(Step(s, w, limit, now, wt).next, w, now) <= limit
  {
    var d := Step(s, w, limit, now, wt);
    SettledRollover(d.next, w, now);
  }

  /** A rejected call is one whose weight does not fit, and it adds nothing. */
  lemma StepRejected(s: State, w: int, limit: int, now: int, wt: int)
    requires |s.count| == 2 && 0 <= now && 0 < w
    ensures !Step(s, w, limit, now, wt).allowed <==> EstimateAt(s, w, now) + wt > limit
    ensures !Step(s, w, limit, now, wt).allowed ==>
      Step(s, w, limit, now, wt).next.count == RolledAt(s, w, now)
  {
  }

  /** Non-negative weights keep both counters non-negative and within the limit. */
  lemma StepPreservesBounds(s: State, w: int, limit: int, now: int, wt: int)
    requires Bounded(s, limit) && 0 <= now && 0 < w && 0 <= wt
    ensures Bounded(Step(s, w, limit, now, wt).next, limit)
  {
    var cur := CurrentSlot(now, w);
    var c := RolledAt(s, w, now);
    RolloverSlots(s.count, s.last, PeriodIndex(now, w), cur);
    ProrateBounds(c[1 - cur], w, Offset(now, w));
  }

  /** Once `last` has reached the period of `now`, the roll-over check at `now` changes nothing. */
  lemma SettledRollover(s: State, w: int, now: int)
    requires |s.count| == 2 && 0 <= now && 0 < w
    requires s.last >= PeriodIndex(now, w)
    ensures RolledAt(s, w, now) == s.count
  {
  }

  // ---------------------------------------------------------------------
  // Sequences of calls
  // ---------------------------------------------------------------------

  predicate ValidCalls(calls: seq<Call>)
  {
    forall i :: 0 <= i < |calls| ==> 0 <= calls[i].now && 0 <= calls[i].wt
  }

  /** The state after performing `calls` one after the other. */
  function Run(s: State, w: int, limit: int, calls: seq<Call>): (t: State)
    requires |s.count| == 2 && 0 < w && ValidCalls(calls)
    ensures |t.count| == 2
    decreases |calls|
  {
    if calls == [] then s
    else Run(Step(s, w, limit, calls[0].now, calls[0].wt).next, w, limit, calls[1..])
  }

  /** With non-negative weights, the counters stay non-negative and bounded across any run. */
  lemma {:induction false} RunBounded(s: State, w: int, limit: int, calls: seq<Call>)
    requires Bounded(s, limit) && 0 < w && ValidCalls(calls)
    ensures Bounded(Run(s, w, limit, calls), limit)
    decreases |calls|
  {
    if calls != [] {
      StepPreservesBounds(s, w, limit, calls[0].now, calls[0].wt);
      RunBounded(Step(s, w, limit, calls[0].now, calls[0].wt).next, w, limit, calls[1..]);
    }
  }

  /** `last` never decreases, and ends at least at the period of every call. */
  lemma {:induction false} RunLast(s: State, w: int, limit: int, calls: seq<Call>)
    requires |s.count| == 2 && 0 < w && ValidCalls(calls)
    ensures Run(s, w, limit, calls).last >= s.last
    ensures forall i :: 0 <= i < |calls| ==>
      Run(s, w, limit, calls).last >= PeriodIndex(calls[i].now, w)
    decreases |calls|
  {
    if calls != [] {
      var next := Step(s, w, limit, calls[0].now, calls[0].wt).next;
      RunLast(next, w, limit, calls[1..]);
      forall i | 0 <= i < |calls|
        ensures Run(s, w, limit, calls).last >= PeriodIndex(calls[i].now, w)
      {
        if i > 0 {
          assert calls[i] == calls[1..][i - 1];
        }
      }
    }
  }

  /** The calls have non-decreasing timestamps, none before `tau`. */
  predicate Monotone(tau: int, calls: seq<Call>)
    decreases |calls|
  {
    calls == [] || (tau <= calls[0].now && Monotone(calls[0].now, calls[1..]))
  }

  /** The timestamp of the last call, or `tau` if there is none. */
  function LastTime(tau: int, calls: seq<Call>): (t: int)
    ensures Monotone(tau, calls) ==> tau <= t
    decreases |calls|
  {
    if calls == [] then tau else LastTime(calls[0].now, calls[1..])
  }

  /**
    The state as left by a call at `tau`: `last` is the period of `tau`, and
    the estimate at `tau` is within the (non-negative part of the) limit.
  */
  predicate Settled(s: State, w: int, limit: int, tau: int)
    requires |s.count| == 2 && 0 < w
  {
    0 <= tau && s.last == PeriodIndex(tau, w) && EstimateAt(s, w, tau) <= Max(limit, 0)
  }

  /** A fresh throttle is settled at time 0. */
  lemma InitSettled(w: int, limit: int)
    requires 0 < w
    ensures Bounded(Init, limit) && Settled(Init, w, limit, 0)
  {
  }

  /**
    If the clock does not run backwards, the estimate a call sees never
    exceeds the (non-negative part of the) limit.
  */
  lemma EstimateWithinLimit(s: State, w: int, limit: int, tau: int, now: int)
    requires Bounded(s, limit) && 0 < w && Settled(s, w, limit, tau) && tau <= now
    ensures EstimateAt(s, w, now) <= Max(limit, 0)
  {
    var p := PeriodIndex(now, w);
    var cur := CurrentSlot(now, w);
    DivMonotone(tau, now, w);
    RolloverSlots(s.count, s.last, p, cur);
    if p == s.last {
      SettledRollover(s, w, tau);
      SettledRollover(s, w, now);
      assert CurrentSlot(tau, w) == cur;
      ProrateAntitone(s.count[1 - cur], w, Offset(tau, w), Offset(now, w));
    } else {
      ProrateBounds(RolledAt(s, w, now)[1 - cur], w, Offset(now, w));
    }
  }

  /** Each call of a run with a non-decreasing clock leaves the state settled at its own time. */
  lemma StepKeepsSettled(s: State, w: int, limit: int, tau: int, now: int, wt: int)
    requires Bounded(s, limit) && 0 < w && 0 <= wt
    requires Settled(s, w, limit, tau) && tau <= now
    ensures Settled(Step(s, w, limit, now, wt).next, w, limit, now)
  {
    var d := Step(s, w, limit, now, wt);
    DivMonotone(tau, now, w);
    EstimateWithinLimit(s, w, limit, tau, now);
    SettledRollover(d.next, w, now);
  }

  /** Over a run with a non-decreasing clock the state stays bounded and settled. */
  lemma {:induction false} RunSettled(s: State, w: int, limit: int, tau: int, calls: seq<Call>)
    requires Bounded(s, limit) && 0 < w && ValidCalls(calls)
    requires Settled(s, w, limit, tau) && Monotone(tau, calls)
    ensures Bounded(Run(s, w, limit, calls), limit)
    ensures Settled(Run(s, w, limit, calls), w, limit, LastTime(tau, calls))
    decreases |calls|
  {
    if calls != [] {
      var c := calls[0];
      StepPreservesBounds(s, w, limit, c.now, c.wt);
      StepKeepsSettled(s, w, limit, tau, c.now, c.wt);
      RunSettled(Step(s, w, limit, c.now, c.wt).next, w, limit, c.now, calls[1..]);
    }
  }

  /**
    From a fresh throttle and a clock that does not run backwards, a
    zero-weight call is never rejected, and no call ever sees an estimate
    above the limit.
  */
  lemma ZeroWeightNeverRejected(w: int, limit: int, calls: seq<Call>, now: int)
    requires 0 < w && 0 <= limit && ValidCalls(calls)
    requires Monotone(0, calls) && LastTime(0, calls) <= now && 0 <= now
    ensures EstimateAt(Run(Init, w, limit, calls), w, now) <= limit
    ensures Step(Run(Init, w, limit, calls), w, limit, now, 0).allowed
  {
    InitSettled(w, limit);
    RunSettled(Init, w, limit, 0, calls);
    EstimateWithinLimit(Run(Init, w, limit, calls), w, limit, LastTime(0, calls), now);
  }

  /**
    The bound is on the estimate, not on the weight admitted in every window
    of `w` milliseconds: with window 100 ms and limit 10, 10 units at 99 ms
    and 10 more at 198 ms are both admitted, because at offset 98 the
    previous count is prorated to `trunc(10 * 2 / 100) == 0`.
  */
  lemma SlidingWindowOvershoot()
    ensures var d1 := Step(Init, 100, 10, 99, 10);
      var d2 := Step(d1.next, 100, 10, 198, 10);
      d1.allowed && d2.allowed && 198 - 99 < 100 &&
      d2.next == State([10, 10], 1)
  {
    var d1 := Step(Init, 100, 10, 99, 10);
    assert d1.next == State([10, 0], 0);
    assert EstimateAt(d1.next, 100, 198) == 0;
  }

  /**
    The total weight of the calls of `calls`, performed from `s`, that are
    admitted and fall in period `p`.
  */
  function AdmittedIn(s: State, w: int, limit: int, calls: seq<Call>, p: int): (n: int)
    requires |s.count| == 2 && 0 < w && ValidCalls(calls)
    ensures 0 <= n
    decreases |calls|
  {
    if calls == [] then 0
    else
      var d := Step(s, w, limit, calls[0].now, calls[0].wt);
      (if d.allowed && PeriodIndex(calls[0].now, w) == p then calls[0].wt else 0)
        + AdmittedIn(d.next, w, limit, calls[1..], p)
  }

  /**
    With a non-decreasing clock, `last` ends at the period of the last call,
    and the current counter holds what it held before (if the period did not
    change) plus the weight admitted in that period.
  */
  lemma {:induction false} RunCurrentSlotFrom(s: State, w: int, limit: int, tau: int, calls: seq<Call>)
    requires |s.count| == 2 && 0 < w && ValidCalls(calls)
    requires 0 <= tau && s.last == PeriodIndex(tau, w) && Monotone(tau, calls)
    ensures var t := Run(s, w, limit, calls);
      t.last == PeriodIndex(LastTime(tau, calls), w) &&
      t.count[t.last % 2] ==
        (if t.last == s.last then s.count[s.last % 2] else 0) + AdmittedIn(s, w, limit, calls, t.last)
    decreases |calls|
  {
    if calls != [] {
      var c := calls[0];
      var d := Step(s, w, limit, c.now, c.wt);
      var q := PeriodIndex(c.now, w);
      DivMonotone(tau, c.now, w);
      RunCurrentSlotFrom(d.next, w, limit, c.now, calls[1..]);
      RunLast(d.next, w, limit, calls[1..]);
      RolloverSlots(s.count, s.last, q, CurrentSlot(c.now, w));
      var t := Run(s, w, limit, calls);
      assert t == Run(d.next, w, limit, calls[1..]);
      if t.last == q {
        if d.allowed {
          StepAdmitted(s, w, limit, c.now, c.wt);
        }
      }
    }
  }

  /**
    From a fresh throttle and a clock that does not run backwards, the
    current counter holds exactly the weight admitted in the current period.
  */
  lemma RunCurrentSlot(w: int, limit: int, calls: seq<Call>)
    requires 0 < w && ValidCalls(calls) && Monotone(0, calls)
    ensures var t := Run(Init, w, limit, calls);
      t.count[t.last % 2] == AdmittedIn(Init, w, limit, calls, t.last)
  {
    RunCurrentSlotFrom(Init, w, limit, 0, calls);
  }

  /**
    Two periods after the last call, the previous slot still holds what was
    counted two periods before that: the code resets it only when more than
    two periods have passed (throttle.go:59).
  */
  lemma StaleSlotAfterTwoPeriodGap(s: State, w: int, limit: int, now: int)
    requires |s.count| == 2 && 0 <= now && 0 < w
    requires PeriodIndex(now, w) == s.last + 2
    ensures var cur := CurrentSlot(now, w);
      RolledAt(s, w, now)[cur] == 0 &&
      RolledAt(s, w, now)[1 - cur] == s.count[(s.last + 1) % 2]
  {
    var cur := CurrentSlot(now, w);
    RolloverSlots(s.count, s.last, s.last + 2, cur);
    DivModUnique(s.last + 2, 2, (s.last + 2) / 2, cur);
    DivModUnique(s.last + 1, 2, (s.last + 2) / 2 - 1 + cur, 1 - cur);
  }

  // ---------------------------------------------------------------------
  // The roll-over the rotation test expects (throttle_test.go:223-226)
  // ---------------------------------------------------------------------

  /**
    The roll-over check with the threshold of the two-bucket sliding window:
    the other slot is reset as soon as more than one period has passed.
  */
  function RolloverIntended(count: seq<int>, last: int, p: int, cur: int): (c: seq<int>)
    requires |count| == 2 && 0 <= cur <= 1
    ensures |c| == 2
  {
    if p > last then
      var c := count[cur := 0];
      if p > last + 1 then c[1 - cur := 0] else c
    else count
  }

  /** The load a call at `now` estimates after the intended roll-over check. */
  function EstimateIntendedAt(s: State, w: int, now: int): (e: int)
    requires |s.count| == 2 && 0 <= now && 0 < w
    ensures 0 <= s.count[0] && 0 <= s.count[1] ==> 0 <= e <= s.count[0] + s.count[1]
  {
    Load(RolloverIntended(s.count, s.last, PeriodIndex(now, w), CurrentSlot(now, w)), w, now)
  }

  /** One call as `Step`, but with the intended roll-over threshold. */
  function StepIntended(s: State, w: int, limit: int, now: int, wt: int): (d: Decision)
    requires |s.count| == 2 && 0 <= now && 0 < w
    ensures |d.next.count| == 2
  {
    var p := PeriodIndex(now, w);
    var cur := CurrentSlot(now, w);
    var rolled := RolloverIntended(s.count, s.last, p, cur);
    var last := if p > s.last then p else s.last;
    if EstimateIntendedAt(s, w, now) + wt > limit then
      Decision(false, State(rolled, last))
    else
      Decision(true, State(rolled[cur := rolled[cur] + wt], last))
  }

  /**
    With the intended threshold, a call more than one period after the last
    one starts from two empty slots: it is admitted exactly when its weight
    fits under the limit, and afterwards only its own weight is counted.
  */
  lemma IntendedRolloverClearsStale(s: State, w: int, limit: int, now: int, wt: int)
    requires |s.count| == 2 && 0 <= now && 0 < w
    requires PeriodIndex(now, w) > s.last + 1
    ensures RolloverIntended(s.count, s.last, PeriodIndex(now, w), CurrentSlot(now, w)) == [0, 0]
    ensures StepIntended(s, w, limit, now, wt).allowed <==> wt <= limit
    ensures var cur, d := CurrentSlot(now, w), StepIntended(s, w, limit, now, wt);
      d.next.count[1 - cur] == 0 &&
      d.next.count[cur] == (if d.allowed then wt else 0)
  {
    var c := RolloverIntended(s.count, s.last, PeriodIndex(now, w), CurrentSlot(now, w));
    assert c == [0, 0];
    ProrateBounds(0, w, Offset(now, w));
  }

  /** The two thresholds differ only for a gap of exactly two periods. */
  lemma IntendedDiffersOnlyAtTwoPeriodGap(s: State, w: int, limit: int, now: int, wt: int)
    requires |s.count| == 2 && 0 <= now && 0 < w
    requires PeriodIndex(now, w) != s.last + 2
    ensures StepIntended(s, w, limit, now, wt) == Step(s, w, limit, now, wt)
  {
  }

  /** The rotation test replayed with the intended threshold ends with one unit counted. */
  lemma IntendedRotationSteps()
    ensures StepIntended(Init, 100, 100, 1000, 1) == Decision(true, State([1, 0], 10))
    ensures StepIntended(State([1, 0], 10), 100, 100, 1000, 1) == Decision(true, State([2, 0], 10))
    ensures StepIntended(State([2, 0], 10), 100, 100, 1000, 1) == Decision(true, State([3, 0], 10))
    ensures StepIntended(State([3, 0], 10), 100, 100, 1100, 1) == Decision(true, State([3, 1], 11))
    ensures StepIntended(State([3, 1], 11), 100, 100, 1200, 1) == Decision(true, State([1, 1], 12))
    ensures StepIntended(State([1, 1], 12), 100, 100, 1400, 1) == Decision(true, State([1, 0], 14))
  {
  }

  /** The state after performing `calls` one after the other with the intended threshold. */
  function RunIntended(s: State, w: int, limit: int, calls: seq<Call>): (t: State)
    requires |s.count| == 2 && 0 < w && ValidCalls(calls)
    ensures |t.count| == 2
    decreases |calls|
  {
    if calls == [] then s
    else RunIntended(StepIntended(s, w, limit, calls[0].now, calls[0].wt).next, w, limit, calls[1..])
  }

  /** `AdmittedIn` for calls performed with the intended threshold. */
  function AdmittedIntendedIn(s: State, w: int, limit: int, calls: seq<Call>, p: int): (n: int)
    requires |s.count| == 2 && 0 < w && ValidCalls(calls)
    ensures 0 <= n
    decreases |calls|
  {
    if calls == [] then 0
    else
      var d := StepIntended(s, w, limit, calls[0].now, calls[0].wt);
      (if d.allowed && PeriodIndex(calls[0].now, w) == p then calls[0].wt else 0)
        + AdmittedIntendedIn(d.next, w, limit, calls[1..], p)
  }

  /**
    The weight `s` holds for period `p`: the current counter for `s.last`,
    the other counter for `s.last - 1`, and nothing for any other period.
  */
  function Held(s: State, p: int): (n: int)
    requires |s.count| == 2
  {
    if p == s.last then s.count[s.last % 2]
    else if p == s.last - 1 then s.count[1 - s.last % 2]
    else 0
  }

  /**
    One intended call in a period `q` not before `s.last` adds its admitted
    weight to what is held for `q` and keeps what is held for every later
    period and for `q - 1`.
  */
  lemma StepIntendedHeld(s: State, w: int, limit: int, now: int, wt: int, p: int)
    requires |s.count| == 2 && 0 <= now && 0 < w
    requires PeriodIndex(now, w) >= s.last && p >= PeriodIndex(now, w) - 1
    ensures var d := StepIntended(s, w, limit, now, wt);
      d.next.last == PeriodIndex(now, w) &&
      Held(d.next, p) ==
        Held(s, p) + (if d.allowed && PeriodIndex(now, w) == p then wt else 0)
  {
    var q := PeriodIndex(now, w);
    var cur := CurrentSlot(now, w);
    assert 1 - cur == 1 - q % 2;
    if q == s.last + 1 {
      assert 1 - q % 2 == s.last % 2;
    }
  }

  /** `RunIntended` and `AdmittedIntendedIn` of a non-empty run, one call unfolded. */
  lemma IntendedCons(s: State, w: int, limit: int, calls: seq<Call>, p: int)
    requires |s.count| == 2 && 0 < w && ValidCalls(calls) && calls != []
    ensures var d := StepIntended(s, w, limit, calls[0].now, calls[0].wt);
      RunIntended(s, w, limit, calls) == RunIntended(d.next, w, limit, calls[1..]) &&
      AdmittedIntendedIn(s, w, limit, calls, p) ==
        (if d.allowed && PeriodIndex(calls[0].now, w) == p then calls[0].wt else 0) +
        AdmittedIntendedIn(d.next, w, limit, calls[1..], p)
  {
  }

  /**
    With the intended threshold and a non-decreasing clock, the state `t`
    after the run holds, for its last period `L` and for `L - 1`, what `s`
    held for that period plus the weight admitted in it.
  */
  lemma {:induction false} RunIntendedHeldFrom(s: State, w: int, limit: int, tau: int, calls: seq<Call>, p: int)
    requires |s.count| == 2 && 0 < w && ValidCalls(calls)
    requires 0 <= tau && s.last == PeriodIndex(tau, w) && Monotone(tau, calls)
    requires p >= RunIntended(s, w, limit, calls).last - 1
    ensures RunIntended(s, w, limit, calls).last >= s.last
    ensures Held(RunIntended(s, w, limit, calls), p) ==
      Held(s, p) + AdmittedIntendedIn(s, w, limit, calls, p)
    decreases |calls|
  {
    if calls != [] {
      var c := calls[0];
      var n := StepIntended(s, w, limit, c.now, c.wt).next;
      DivMonotone(tau, c.now, w);
      IntendedCons(s, w, limit, calls, p);
      RunIntendedHeldFrom(n, w, limit, c.now, calls[1..], p);
      StepIntendedHeld(s, w, limit, c.now, c.wt, p);
    }
  }

  /**
    From a fresh throttle, with the intended threshold and a clock that does
    not run backwards, the two counters hold exactly the weight admitted in
    the current period and in the one before it.
  */
  lemma RunIntendedSlots(w: int, limit: int, calls: seq<Call>)
    requires 0 < w && ValidCalls(calls) && Monotone(0, calls)
    ensures var t := RunIntended(Init, w, limit, calls);
      t.count[t.last % 2] == AdmittedIntendedIn(Init, w, limit, calls, t.last) &&
      t.count[1 - t.last % 2] == AdmittedIntendedIn(Init, w, limit, calls, t.last - 1)
  {
    var t := RunIntended(Init, w, limit, calls);
    RunIntendedHeldFrom(Init, w, limit, 0, calls, t.last);
    RunIntendedHeldFrom(Init, w, limit, 0, calls, t.last - 1);
  }

  /**
    The code's threshold breaks the second equation of `RunIntendedSlots`:
    after calls at 100, 200 and 400 ms (window 100 ms), the previous slot of
    period 4 holds the unit of period 1, while nothing was admitted in
    period 3. With the intended threshold it holds 0.
  */
  lemma RunKeepsStalePreviousSlot()
    ensures var calls := [Call(100, 1), Call(200, 1), Call(400, 1)];
      Run(Init, 100, 100, calls) == State([1, 1], 4) &&
      AdmittedIn(Init, 100, 100, calls, 3) == 0 &&
      RunIntended(Init, 100, 100, calls) == State([1, 0], 4) &&
      AdmittedIntendedIn(Init, 100, 100, calls, 3) == 0
  {
    var calls := [Call(100, 1), Call(200, 1), Call(400, 1)];
    var d1 := Step(Init, 100, 100, 100, 1);
    assert d1 == Decision(true, State([0, 1], 1));
    var d2 := Step(d1.next, 100, 100, 200, 1);
    assert d2 == Decision(true, State([1, 1], 2));
    var d3 := Step(d2.next, 100, 100, 400, 1);
    assert d3 == Decision(true, State([1, 1], 4));
    assert calls[1..] == [Call(200, 1), Call(400, 1)];
    assert calls[1..][1..] == [Call(400, 1)];
    var e1 := StepIntended(Init, 100, 100, 100, 1);
    assert e1 == Decision(true, State([0, 1], 1));
    var e2 := StepIntended(e1.next, 100, 100, 200, 1);
    assert e2 == Decision(true, State([1, 1], 2));
    var e3 := StepIntended(e2.next, 100, 100, 400, 1);
    assert e3 == Decision(true, State([1, 0], 4));
  }

  // ---------------------------------------------------------------------
  // The comparison `sum+wt > t.limit` in int32 (throttle.go:68)
  // ---------------------------------------------------------------------

  /** Two's-complement wrap-around of an integer into int32. */
  function Wrap32(x: int): (r: int)
    ensures INT32_MIN <= r <= INT32_MAX
    ensures (r - x) % 0x1_0000_0000 == 0
    ensures INT32_MIN <= x <= INT32_MAX ==> r == x
  {
    (x - INT32_MIN) % 0x1_0000_0000 + INT32_MIN
  }

  /**
    The admission test as the Go code evaluates it, with an int32 sum.
    Wherever `sum + wt` does not overflow, it agrees with the exact test.
  */
  function AdmitsInt32(sum: int, wt: int, limit: int): (b: bool)
    ensures INT32_MIN <= sum + wt <= INT32_MAX ==> (b <==> sum + wt <= limit)
  {
    !(Wrap32(sum + wt) > limit)
  }

  /**
    After one admitted unit, a call with weight 2^31-1 on a throttle of
    limit 10 passes the int32 test, because `1 + (2^31-1)` wraps to -2^31.
    The model's admission test (in `Step`) rejects it.
  */
  lemma WrapAdmitsOverweight()
    ensures var s1 := Step(Init, 1000, 10, 5000, 1);
      s1.allowed &&
      EstimateAt(s1.next, 1000, 5000) == 1 &&
      AdmitsInt32(EstimateAt(s1.next, 1000, 5000), INT32_MAX, 10) &&
      !Step(s1.next, 1000, 10, 5000, INT32_MAX).allowed
  {
    var s1 := Step(Init, 1000, 10, 5000, 1);
    assert s1.next == State([0, 1], 5);
    assert EstimateAt(s1.next, 1000, 5000) == 1;
    assert Wrap32(1 + INT32_MAX) == INT32_MIN;
  }

  /**
    One `AllowN` call with the Go code's int32 arithmetic: `sum`, `sum+wt`
    and `count.Add(wt)` wrap around (throttle.go:67-71).
  */
  function StepInt32(s: State, w: int, limit: int, now: int, wt: int): (d: Decision)
    requires |s.count| == 2 && 0 <= now && 0 < w
    ensures |d.next.count| == 2
    ensures d.next.last == Max(s.last, PeriodIndex(now, w))
    ensures !d.allowed ==> d.next.count == RolledAt(s, w, now)
  {
    var cur := CurrentSlot(now, w);
    var rolled := RolledAt(s, w, now);
    var last := Max(s.last, PeriodIndex(now, w));
    var sum := Wrap32(EstimateAt(s, w, now));
    if AdmitsInt32(sum, wt, limit) then
      Decision(true, State(rolled[cur := Wrap32(rolled[cur] + wt)], last))
    else
      Decision(false, State(rolled, last))
  }

  /**
    With non-negative counters and weight, wherever the exact estimate plus the
    weight fits in int32, the Go arithmetic and the model's take the same step.
  */
  lemma StepInt32AgreesInRange(s: State, w: int, limit: int, now: int, wt: int)
    requires |s.count| == 2 && 0 <= now && 0 < w && 0 <= wt
    requires 0 <= s.count[0] && 0 <= s.count[1]
    requires EstimateAt(s, w, now) + wt <= INT32_MAX
    ensures StepInt32(s, w, limit, now, wt) == Step(s, w, limit, now, wt)
  {
    RolloverSlots(s.count, s.last, PeriodIndex(now, w), CurrentSlot(now, w));
  }

  /**
    With a clock that never runs backwards, once the `sum+wt` wrap has
    admitted an overweight call, `sum` itself wraps on the next call: limit
    10, 10 units at 5000 ms, 2^31-2 units at 6000 ms (admitted because
    `10 + (2^31-2)` wraps), then one unit at 6000 ms sees `sum` wrapped to
    -2^31+8 and is admitted too. The model rejects the second call.
  */
  lemma SumWrapsWithMonotoneClock()
    ensures var d1 := StepInt32(Init, 1000, 10, 5000, 10);
      var d2 := StepInt32(d1.next, 1000, 10, 6000, INT32_MAX - 1);
      var d3 := StepInt32(d2.next, 1000, 10, 6000, 1);
      d1 == Step(Init, 1000, 10, 5000, 10) &&
      d1 == Decision(true, State([0, 10], 5)) &&
      d2 == Decision(true, State([INT32_MAX - 1, 10], 6)) &&
      !Step(d1.next, 1000, 10, 6000, INT32_MAX - 1).allowed &&
      EstimateAt(d2.next, 1000, 6000) == INT32_MAX + 9 &&
      Wrap32(EstimateAt(d2.next, 1000, 6000)) == INT32_MIN + 8 &&
      d3 == Decision(true, State([INT32_MAX, 10], 6))
  {
    var d1 := StepInt32(Init, 1000, 10, 5000, 10);
    assert d1.next == State([0, 10], 5);
    assert EstimateAt(d1.next, 1000, 6000) == 10;
    var d2 := StepInt32(d1.next, 1000, 10, 6000, INT32_MAX - 1);
    assert d2.next == State([INT32_MAX - 1, 10], 6);
    assert EstimateAt(d2.next, 1000, 6000) == INT32_MAX + 9;
  }

  /**
    After the clock goes back one period, the exact estimate exceeds int32:
    in Go, `sum` (throttle.go:67) wraps to -2147485 and the int32 test admits
    1000 more units, which the model rejects.
  */
  lemma SumWrapsAfterClockRegression()
    ensures var d1 := Step(Init, 1000, INT32_MAX, 0, INT32_MAX);
      var d2 := Step(d1.next, 1000, INT32_MAX, 1999, 2145336164);
      d1.allowed && d2.allowed &&
      d2.next == State([INT32_MAX, 2145336164], 1) &&
      EstimateAt(d2.next, 1000, 0) == 4292819811 &&
      Wrap32(EstimateAt(d2.next, 1000, 0)) == -2147485 &&
      AdmitsInt32(Wrap32(EstimateAt(d2.next, 1000, 0)), 1000, INT32_MAX) &&
      !Step(d2.next, 1000, INT32_MAX, 0, 1000).allowed
  {
    var d1 := Step(Init, 1000, INT32_MAX, 0, INT32_MAX);
    assert d1.next == State([INT32_MAX, 0], 0);
    var d2 := Step(d1.next, 1000, INT32_MAX, 1999, 2145336164);
    assert EstimateAt(d1.next, 1000, 1999) == 2147483;
    assert d2.next == State([INT32_MAX, 2145336164], 1);
    assert EstimateAt(d2.next, 1000, 0) == 4292819811;
  }

  // ---------------------------------------------------------------------
  // The Throttle object (throttle.go:26-73)
  // ---------------------------------------------------------------------

  class Throttle {
    const windowMillis: int
    const limit: int
    const count: array<int>
    var last: int

    ghost predicate Valid()
      reads this, count
    {
      count.Length == 2 &&
      0 < windowMillis < WINDOW_BOUND &&
      INT32_MIN <= limit <= INT32_MAX &&
      0 <= last &&
      Bounded(State([count[0], count[1]], last), limit)
    }

    /** The counters and the last period index as a value. */
    ghost function Snapshot(): (s: State)
      reads this, count
      requires Valid()
      ensures |s.count| == 2
    {
      State([count[0], count[1]], last)
    }

    /** `NewThrottle`: both counters and the last period index start at 0. */
    constructor NewThrottle(windowMillis: int, limit: int)
      requires 0 < windowMillis < WINDOW_BOUND
      requires INT32_MIN <= limit <= INT32_MAX
      ensures Valid() && fresh(count)
      ensures this.windowMillis == windowMillis && this.limit == limit
      ensures Snapshot() == Init
    {
      this.windowMillis := windowMillis;
      this.limit := limit;
      var c := new int[2];
      c[0], c[1] := 0, 0;
      count := c;
      last := 0;
      new;
      assert Snapshot() == Init;
    }

    /** `AllowN`: whether an operation of weight `wt` at millisecond `now` is admitted. */
    method AllowN(now: int, wt: int) returns (ok: bool)
      requires Valid()
      requires 0 <= now
      requires 0 <= wt <= INT32_MAX
      modifies this, count
      ensures Valid()
      ensures Decision(ok, Snapshot()) ==
        Step(old(Snapshot()), windowMillis, limit, now, wt)
      ensures last == Max(old(last), PeriodIndex(now, windowMillis))
      ensures ok <==> old(EstimateAt(Snapshot(), windowMillis, now)) + wt <= limit
      ensures ok ==> EstimateAt(Snapshot(), windowMillis, now) <= limit
    {
      ghost var s := Snapshot();
      var divX2 := PeriodIndex(now, windowMillis);
      var diff := Diff(now, windowMillis);
      var current := diff / windowMillis;
      SlotAndOffset(now, windowMillis);

      // Roll-over check
      var lastSeen := last;
      if divX2 > lastSeen {
        count[current] := 0;
        if divX2 > lastSeen + 2 {
          count[1 - current] := 0;
        }
        last := divX2;
      }
      assert [count[0], count[1]] == RolledAt(s, windowMillis, now);

      var mod := diff % windowMillis;
      var proratedPrev := Prorate(count[1 - current], windowMillis, mod);
      var sum := count[current] + proratedPrev;
      StepPreservesBounds(s, windowMillis, limit, now, wt);
      if sum + wt > limit {
        return false;
      }
      count[current] := count[current] + wt;
      StepAdmitted(s, windowMillis, limit, now, wt);
      return true;
    }

    /** `Allow`: the same as `AllowN(1)`. */
    method Allow(now: int) returns (ok: bool)
      requires Valid()
      requires 0 <= now
      modifies this, count
      ensures Valid()
      ensures Decision(ok, Snapshot()) ==
        Step(old(Snapshot()), windowMillis, limit, now, 1)
    {
      ok := AllowN(now, 1);
    }
  }

  /** The six calls of the rotation scenario, one `Step` at a time. */
  lemma RotationSteps()
    ensures Step(Init, 100, 100, 1000, 1) == Decision(true, State([1, 0], 10))
    ensures Step(State([1, 0], 10), 100, 100, 1000, 1) == Decision(true, State([2, 0], 10))
    ensures Step(State([2, 0], 10), 100, 100, 1000, 1) == Decision(true, State([3, 0], 10))
    ensures Step(State([3, 0], 10), 100, 100, 1100, 1) == Decision(true, State([3, 1], 11))
    ensures Step(State([3, 1], 11), 100, 100, 1200, 1) == Decision(true, State([1, 1], 12))
    ensures Step(State([1, 1], 12), 100, 100, 1400, 1) == Decision(true, State([1, 1], 14))
  {
  }

  /**
    The rotation scenario of the package's tests with explicit timestamps
    (window 100 ms, limit 100): three calls, one call a window later, one
    call another window later, then one call two windows later. The tests
    expect the counters to sum to 1 at the end; the code as written keeps
    the count of the period three windows back and sums to 2.
  */
  method RotationScenario() returns (sums: seq<int>)
    ensures sums == [3, 4, 2, 2]
  {
    RotationSteps();
    var t := new Throttle.NewThrottle(100, 100);
    var ok := t.Allow(1000);
    assert t.Snapshot() == State([1, 0], 10);
    ok := t.Allow(1000);
    assert t.Snapshot() == State([2, 0], 10);
    ok := t.Allow(1000);
    assert t.Snapshot() == State([3, 0], 10);
    sums := [t.count[0] + t.count[1]];
    ok := t.Allow(1100);
    assert t.Snapshot() == State([3, 1], 11);
    sums := sums + [t.count[0] + t.count[1]];
    ok := t.Allow(1200);
    assert t.Snapshot() == State([1, 1], 12);
    sums := sums + [t.count[0] + t.count[1]];
    ok := t.Allow(1400);
    // period 14 is two after period 12, so slot 1 keeps the unit counted in period 11
    assert t.Snapshot() == State([1, 1], 14);
    sums := sums + [t.count[0] + t.count[1]];
  }
}
