/**
 * The human-like reply delay (get_humanlike_delay). The random draws are
 * parameters with the ranges Python's random module documents:
 *   randint(0, 30)   -> wakeMinute in 0..30
 *   random()         -> a real in [0, 1)
 *   uniform(a, b)    -> a + (b - a) * random(), as CPython computes it
 * The result is in seconds.
 */
module Delay {
  import opened Clock

  predicate IsUnitDraw(u: real)
  {
    0.0 <= u < 1.0
  }

  /** random.uniform(lo, hi) given the underlying random() draw u. */
  function Uniform(lo: real, hi: real, u: real): (x: real)
    requires lo <= hi && IsUnitDraw(u)
    ensures lo <= x <= hi
    ensures lo < hi ==> x < hi
  {
    var p := Scaled(hi - lo, u);
    Between(lo, hi, p, hi - lo - p);
    lo + p
  }

  /** A draw in [0, 1) scaled by a width w >= 0 lies in [0, w], and below w when w > 0. */
  function Scaled(w: real, u: real): (p: real)
    requires w >= 0.0 && IsUnitDraw(u)
    ensures 0.0 <= p <= w
    ensures w > 0.0 ==> p < w
  {
    ProductSign(w, u);
    ProductSign(w, 1.0 - u);
    Distribute(w, u);
    w * u
  }

  /** Splitting the width of [lo, hi] into two non-negative parts places lo + p inside. */
  lemma Between(lo: real, hi: real, p: real, q: real)
    requires p >= 0.0 && q >= 0.0 && p + q == hi - lo
    requires lo < hi ==> q > 0.0
    ensures lo <= lo + p <= hi
    ensures lo < hi ==> lo + p < hi
  {
  }

  lemma Distribute(w: real, u: real)
    ensures w * u + w * (1.0 - u) == w
  {
  }

  lemma ProductSign(a: real, b: real)
    requires a >= 0.0 && b >= 0.0
    ensures a * b >= 0.0
    ensures a > 0.0 && b > 0.0 ==> a * b > 0.0
  {
  }

  /** Second of the day at which the sleeper wakes: 09:mm:00. */
  function WakeSecond(wakeMinute: int): (s: SecondOfDay)
    requires 0 <= wakeMinute <= 30
    ensures SleepEndHour * SecondsPerHour <= s <= SleepEndHour * SecondsPerHour + 30 * 60
  {
    SleepEndHour * SecondsPerHour + wakeMinute * 60
  }

  /**
   * now.replace(hour=9, minute=wakeMinute, second=0), moved on one day when now
   * is already past it: the first moment at or after now whose clock reads 09:mm:00.
   */
  function WakeTime(now: Moment, wakeMinute: int): (wake: Moment)
    requires 0 <= wakeMinute <= 30
    ensures wake.second == WakeSecond(wakeMinute)
    ensures Seconds(now) <= Seconds(wake) < Seconds(now) + SecondsPerDay
    ensures wake.day == now.day || wake.day == now.day + 1
    ensures IsSleepingTime(now) ==> wake.day == now.day
  {
    var today := Moment(now.day, WakeSecond(wakeMinute));
    if Seconds(now) > Seconds(today) then Moment(now.day + 1, today.second) else today
  }

  /** Seconds from now until the wake-up time. */
  function SleepDelay(now: Moment, wakeMinute: int): (d: int)
    requires 0 <= wakeMinute <= 30
    ensures 0 <= d < SecondsPerDay
    ensures Seconds(now) + d == Seconds(Moment(now.day, WakeSecond(wakeMinute)))
         || Seconds(now) + d == Seconds(Moment(now.day + 1, WakeSecond(wakeMinute)))
    ensures IsSleepingTime(now) ==>
              1 <= d <= 7 * SecondsPerHour + 30 * 60
              && Seconds(now) + d == Seconds(Moment(now.day, WakeSecond(wakeMinute)))
  {
    Seconds(WakeTime(now, wakeMinute)) - Seconds(now)
  }

  /**
   * The awake branch: the draw r picks a band (r < 0.5: [1, 5), r < 0.9: [10, 90),
   * otherwise [120, 900)), and u places the delay uniformly inside it.
   */
  function AwakeDelay(r: real, u: real): (d: real)
    requires IsUnitDraw(r) && IsUnitDraw(u)
    ensures r < 0.5 ==> 1.0 <= d < 5.0
    ensures 0.5 <= r < 0.9 ==> 10.0 <= d < 90.0
    ensures 0.9 <= r ==> 120.0 <= d < 900.0
    ensures 1.0 <= d < 900.0
  {
    if r < 0.5 then Uniform(1.0, 5.0, u)
    else if r < 0.9 then Uniform(10.0, 90.0, u)
    else Uniform(120.0, 900.0, u)
  }

  /** get_humanlike_delay, evaluated at a single clock reading now. */
  function HumanlikeDelay(now: Moment, wakeMinute: int, r: real, u: real): (d: real)
    requires 0 <= wakeMinute <= 30 && IsUnitDraw(r) && IsUnitDraw(u)
    ensures d >= 0.0
    ensures IsSleepingTime(now) ==>
              1.0 <= d <= (7 * SecondsPerHour + 30 * 60) as real
              && Seconds(now) as real + d == Seconds(Moment(now.day, WakeSecond(wakeMinute))) as real
    ensures !IsSleepingTime(now) ==> 1.0 <= d < 900.0
  {
    if IsSleepingTime(now) then SleepDelay(now, wakeMinute) as real else AwakeDelay(r, u)
  }
}
