/** libev's own floor and the next point of a periodic, over exact reals. */
module Periodic {

  /** 2^64: the values an unsigned long can hold. */
  const SHIFT: real := 18446744073709551616.0

  const MIN_INTERVAL: real := 0.0001220703125

  lemma FloorOf(v: real, n: int)
    requires n as real <= v < n as real + 1.0
    ensures v.Floor == n
  {
  }

  lemma FloorOfNegative(v: real)
    ensures var f := -((-v).Floor as real); f - (if f == v then 0.0 else 1.0) == v.Floor as real
  {
    var n := -(-v).Floor;
    FloorOf(v, if n as real == v then n else n - 1);
  }

  lemma FloorOfShifted(v: real)
    requires v >= SHIFT
    ensures var f := SHIFT * (v * (1.0 / SHIFT)).Floor as real; f + (v - f).Floor as real == v.Floor as real
  {
    Shifted(v);
    var f := SHIFT * (v * (1.0 / SHIFT)).Floor as real;
    FloorOf(v, f.Floor + (v - f).Floor);
  }

  /** The source also stops when v == v - 1, which no exact real satisfies. */
  function EvFloor(v: real): (r: real)
    ensures r == v.Floor as real
    decreases v < 0.0, if v < 0.0 then 0.0 else v
  {
    if v < 0.0 then
      FloorOfNegative(v);
      var f := -EvFloor(-v);
      f - (if f == v then 0.0 else 1.0)
    else if v >= SHIFT then
      Shifted(v);
      FloorOfShifted(v);
      var f := SHIFT * EvFloor(v * (1.0 / SHIFT));
      f + EvFloor(v - f)
    else v.Floor as real
  }

  /** A whole number n of shifts, from the floor of q. */
  lemma ShiftIsWhole(n: int)
    ensures (SHIFT * n as real).Floor as real == SHIFT * n as real
  {
    assert (18446744073709551616 * n) as real == SHIFT * n as real;
  }

  lemma FloorAtLeastOne(q: real)
    requires q >= 1.0
    ensures q.Floor >= 1 && (q.Floor as real) <= q < q.Floor as real + 1.0
  {
  }

  lemma Shifted(v: real)
    requires v >= SHIFT
    ensures 0.0 <= v * (1.0 / SHIFT) <= v - 1.0
    ensures var f := SHIFT * (v * (1.0 / SHIFT)).Floor as real;
      && SHIFT <= f <= v < f + SHIFT
      && (f.Floor as real) == f
  {
    var q := v * (1.0 / SHIFT);
    FloorAtLeastOne(q);
    ShiftIsWhole(q.Floor);
  }

  function Times(n: int, i: real): real {
    n as real * i
  }

  lemma TimesMono(a: int, b: int, i: real)
    requires i > 0.0
    ensures Times(a, i) <= Times(b, i) <==> a <= b
  {
    MulMono(a as real, b as real, i);
  }

  lemma TimesSum(a: int, b: int, i: real)
    ensures Times(a + b, i) == Times(a, i) + Times(b, i)
    ensures Times(1, i) == i && Times(0, i) == 0.0
  {
  }

  lemma MulMono(a: real, b: real, c: real)
    requires c > 0.0
    ensures a * c <= b * c <==> a <= b
  {
  }

  lemma DivMul(a: real, i: real)
    requires i > 0.0
    ensures a / i * i == a
  {
  }

  /** The number of whole i in d. */
  function Whole(d: real, i: real): int
    requires i > 0.0
  {
    (d / i).Floor
  }

  lemma WholeSteps(d: real, i: real, n: int)
    requires i > 0.0
    ensures n <= Whole(d, i) <==> Times(n, i) <= d
  {
    DivMul(d, i);
    MulMono(n as real, d / i, i);
  }

  function Step(interval: real): (r: real)
    requires interval > 0.0
    ensures r >= interval && r > 0.0 && (interval >= MIN_INTERVAL ==> r == interval)
  {
    if interval > MIN_INTERVAL then interval else MIN_INTERVAL
  }

  /** Where the search for the next point starts. */
  function Start(offset: real, interval: real, now: real): (r: real)
    requires interval > 0.0
    ensures r == offset + Times(Whole(now - offset, Step(interval)), Step(interval))
  {
    offset + Step(interval) * EvFloor((now - offset) / Step(interval))
  }

  lemma StartIsPast(offset: real, interval: real, now: real)
    requires interval > 0.0
    ensures Start(offset, interval, now) <= now < Start(offset, interval, now) + Step(interval)
  {
    hide Times, Whole, EvFloor, Step;
    var i := Step(interval);
    var n := Whole(now - offset, i);
    WholeSteps(now - offset, i, n);
    WholeSteps(now - offset, i, n + 1);
    TimesSum(n, 1, i);
  }

  /** The first step of interval from the start that is after now. */
  method PeriodicRecalc(offset: real, interval: real, now: real) returns (at: real, ghost steps: nat)
    requires interval > 0.0
    ensures at == Start(offset, interval, now) + Times(steps, interval)
    ensures at - interval <= now < at
  {
    hide Times, Whole, EvFloor, Start;
    StartIsPast(offset, interval, now);
    at := offset + Step(interval) * EvFloor((now - offset) / Step(interval));
    ghost var start := at;
    assert start == Start(offset, interval, now) by { StartIs(offset, interval, now); }
    steps := 0;
    TimesSum(0, 0, interval);
    while at <= now
      invariant at == start + Times(steps, interval)
      invariant at - interval <= now
      decreases Whole(now - start, interval) + 1 - steps
    {
      WholeSteps(now - start, interval, steps);
      TimesSum(steps, 1, interval);
      var next := at + interval;
      if next == at {
        at := now;
        break;
      }
      at := next;
      steps := steps + 1;
    }
  }

  lemma StartIs(offset: real, interval: real, now: real)
    requires interval > 0.0
    ensures Start(offset, interval, now) == offset + Step(interval) * EvFloor((now - offset) / Step(interval))
  {
  }

  /** The k-th point of the periodic. */
  function Point(offset: real, interval: real, k: int): real {
    offset + Times(k, interval)
  }

  ghost predicate OnGrid(offset: real, interval: real, at: real) {
    exists k: int :: at == Point(offset, interval, k)
  }

  /** The least point of the periodic after now. */
  ghost predicate NextPoint(offset: real, interval: real, now: real, at: real) {
    && OnGrid(offset, interval, at) && now < at
    && forall k: int :: now < Point(offset, interval, k) ==> at <= Point(offset, interval, k)
  }

  /** No point lies strictly between two neighbours. */
  lemma PointsApart(offset: real, interval: real, j: int, k: int)
    requires interval > 0.0 && Point(offset, interval, j) < Point(offset, interval, k) + interval
    ensures Point(offset, interval, j) <= Point(offset, interval, k)
  {
    hide Times;
    TimesSum(k, 1, interval);
    TimesMono(k + 1, j, interval);
    TimesMono(j, k, interval);
  }

  /** What periodic_recalc returns is the next point just when its start is a point; at
      MIN_INTERVAL and above it always is. */
  lemma NextPointIff(offset: real, interval: real, now: real, at: real, steps: nat)
    requires interval > 0.0
    requires at == Start(offset, interval, now) + Times(steps, interval) && at - interval <= now < at
    ensures NextPoint(offset, interval, now, at) <==> OnGrid(offset, interval, Start(offset, interval, now))
    ensures interval >= MIN_INTERVAL ==> NextPoint(offset, interval, now, at)
  {
    hide Times, Whole, EvFloor, Step, Start;
    var start := Start(offset, interval, now);
    if k: int :| start == Point(offset, interval, k) {
      TimesSum(k, steps, interval);
      assert at == Point(offset, interval, k + steps);
      forall j: int | now < Point(offset, interval, j) ensures at <= Point(offset, interval, j) {
        if Point(offset, interval, j) < at {
          PointsApart(offset, interval, k + steps, j);
        }
      }
    }
    if k: int :| at == Point(offset, interval, k) {
      TimesSum(k - steps, steps, interval);
      assert start == Point(offset, interval, k - steps);
    }
    if interval >= MIN_INTERVAL {
      StartOnGrid(offset, interval, now);
    }
  }

  lemma StartOnGrid(offset: real, interval: real, now: real)
    requires interval >= MIN_INTERVAL
    ensures OnGrid(offset, interval, Start(offset, interval, now))
  {
    hide Times, Whole, EvFloor, Step;
    assert Start(offset, interval, now) == Point(offset, interval, Whole(now - offset, interval));
  }

  /** Below MIN_INTERVAL the result can miss the grid: every 0.0001 from 0, at 0.00013. */
  lemma ShortIntervalMisses()
    ensures var at := Start(0.0, 0.0001, 0.00013) + 0.0001;
      && at - 0.0001 <= 0.00013 < at && !NextPoint(0.0, 0.0001, 0.00013, at)
  {
    WholeSteps(0.00013, MIN_INTERVAL, 1);
    WholeSteps(0.00013, MIN_INTERVAL, 2);
    var at := Start(0.0, 0.0001, 0.00013) + 0.0001;
    assert at == 0.0002220703125;
    assert Point(0.0, 0.0001, 2) == 0.0002;
  }
}
