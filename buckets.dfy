/**
 * The token-bucket rate limiter shared by gpt/limiter.py and
 * openai_client/limiter.py, as functions of the bucket's state. The two
 * versions differ in one place only: the gpt version truncates the refill to
 * an integer (`int(elapsed * rate)`), the other adds the exact amount.
 *
 * Time is an input: `clock` lists the successive readings of `time.time()`
 * that `_refill` takes, the first before the wait loop and one per
 * iteration. When the readings run out before enough tokens are back, the
 * call is still waiting.
 */
module Buckets {
  import opened Wrappers

  /** `_current_size` and `_last_fill_time` */
  datatype Bucket = Bucket(level: real, lastFill: real)

  /** How a `consume` call ends when it does not raise. */
  datatype Status = Done | Waiting

  function Min(a: real, b: real): real { if a <= b then a else b }

  /** Python's `int(x)`: truncation toward zero. */
  function Trunc(x: real): (r: int)
    ensures x >= 0.0 ==> 0 <= r && r as real <= x < r as real + 1.0
    ensures x < 0.0 ==> r <= 0 && x <= r as real < x + 1.0
  {
    if x >= 0.0 then x.Floor else -((-x).Floor)
  }

  /** The tokens `_refill` adds for `elapsed` seconds at `rate` per second. */
  function Refill(floored: bool, rate: real, elapsed: real): real {
    if floored then Trunc(elapsed * rate) as real else elapsed * rate
  }

  /** `_refill()` at time `now`: add the refill, clamp at the maximum, remember `now`. */
  function Refilled(floored: bool, max: real, rate: real, b: Bucket, now: real): (r: Bucket)
    ensures r.lastFill == now && r.level <= max
  {
    Bucket(Min(max, b.level + Refill(floored, rate, now - b.lastFill)), now)
  }

  /**
   * The wait loop: while `amount` exceeds the level, refill at the next
   * reading. True when the loop exits, false when the readings run out first.
   */
  function Settled(floored: bool, max: real, rate: real, b: Bucket, amount: int, clock: seq<real>): (Bucket, bool)
    decreases |clock|
  {
    if amount as real <= b.level then (b, true)
    else if clock == [] then (b, false)
    else Settled(floored, max, rate, Refilled(floored, max, rate, b, clock[0]), amount, clock[1..])
  }

  /**
   * `consume(amount)`: nothing for zero; ValueError when `amount` exceeds the
   * bucket; otherwise refill, wait until `amount` fits, and take it.
   */
  function Consumed(floored: bool, max: real, rate: real, b: Bucket, amount: int, clock: seq<real>): (Bucket, Result<Status>)
  {
    if amount == 0 then (b, Ok(Done))
    else if amount as real > max then (b, Err(ValueError("Amount exceeds bucket size.")))
    else if clock == [] then (b, Ok(Waiting))
    else
      var (s, ok) := Settled(floored, max, rate, Refilled(floored, max, rate, b, clock[0]), amount, clock[1..]);
      if ok then (Bucket(s.level - amount as real, s.lastFill), Ok(Done)) else (s, Ok(Waiting))
  }

  /** A new bucket of `size` starts full and refills `size` tokens per minute. */
  function Fresh(size: real, now: real): (b: Bucket)
    ensures b.level == size
  {
    Bucket(size, now)
  }

  function RateFor(size: real): real { size / 60.0 }

  /** The readings never go back before `from`. */
  predicate NonDecreasing(from: real, clock: seq<real>) {
    (clock == [] || from <= clock[0]) && forall i, j :: 0 <= i < j < |clock| ==> clock[i] <= clock[j]
  }

  ghost predicate InRange(max: real, b: Bucket) {
    0.0 <= b.level <= max
  }

  // ----- properties ---------------------------------------------------------------------

  /** Refilling with time not going back never lowers the level of a bucket in range. */
  lemma RefillNeverLowers(floored: bool, max: real, rate: real, b: Bucket, now: real)
    requires rate >= 0.0 && b.lastFill <= now && InRange(max, b)
    ensures InRange(max, Refilled(floored, max, rate, b, now))
    ensures Refilled(floored, max, rate, b, now).level >= b.level
  {
    MulNonNegative(now - b.lastFill, rate);
    assert Refill(floored, rate, now - b.lastFill) >= 0.0;
  }

  lemma MulNonNegative(x: real, y: real)
    requires x >= 0.0 && y >= 0.0
    ensures x * y >= 0.0
  {
  }

  /** The truncating refill discards fractions: an interval worth less than one token adds nothing. */
  lemma TruncatedRefillDropsFraction(max: real, rate: real, b: Bucket, now: real)
    requires 0.0 <= (now - b.lastFill) * rate < 1.0 && b.level <= max
    ensures Refilled(true, max, rate, b, now) == Bucket(b.level, now)
  {
    var x := (now - b.lastFill) * rate;
    assert Trunc(x) == 0;
    assert Refill(true, rate, now - b.lastFill) == 0.0;
  }

  /** The exact refill keeps fractions: any positive interval at a positive rate adds to a bucket below its maximum. */
  lemma ExactRefillKeepsFraction(max: real, rate: real, b: Bucket, now: real)
    requires rate > 0.0 && b.lastFill < now && b.level < max
    ensures Refilled(false, max, rate, b, now).level > b.level
  {
    MulPositive(now - b.lastFill, rate);
    assert Refill(false, rate, now - b.lastFill) > 0.0;
  }

  lemma MulPositive(x: real, y: real)
    requires x > 0.0 && y > 0.0
    ensures x * y > 0.0
  {
  }

  /** The wait loop keeps the bucket in range and never lowers it while time goes forward. */
  lemma {:induction false} SettledInRange(floored: bool, max: real, rate: real, b: Bucket, amount: int, clock: seq<real>)
    requires rate >= 0.0 && InRange(max, b) && NonDecreasing(b.lastFill, clock)
    ensures InRange(max, Settled(floored, max, rate, b, amount, clock).0)
    ensures Settled(floored, max, rate, b, amount, clock).0.level >= b.level
    ensures Settled(floored, max, rate, b, amount, clock).1 ==> amount as real <= Settled(floored, max, rate, b, amount, clock).0.level
    decreases |clock|
  {
    if amount as real > b.level && clock != [] {
      RefillNeverLowers(floored, max, rate, b, clock[0]);
      SettledInRange(floored, max, rate, Refilled(floored, max, rate, b, clock[0]), amount, clock[1..]);
    }
  }

  /**
   * For a non-negative amount and time going forward, `consume` keeps the
   * level within `[0, max]`; when it completes it has taken exactly `amount`
   * from the refilled level, so it never overdraws.
   */
  lemma ConsumeKeepsRange(floored: bool, max: real, rate: real, b: Bucket, amount: int, clock: seq<real>)
    requires rate >= 0.0 && InRange(max, b) && NonDecreasing(b.lastFill, clock) && amount >= 0
    ensures InRange(max, Consumed(floored, max, rate, b, amount, clock).0)
    ensures amount > 0 && clock != [] && Consumed(floored, max, rate, b, amount, clock).1 == Ok(Done) ==>
              var s := Settled(floored, max, rate, Refilled(floored, max, rate, b, clock[0]), amount, clock[1..]).0;
              Consumed(floored, max, rate, b, amount, clock).0.level == s.level - amount as real
  {
    if amount != 0 && amount as real <= max && clock != [] {
      RefillNeverLowers(floored, max, rate, b, clock[0]);
      var r := Refilled(floored, max, rate, b, clock[0]);
      assert NonDecreasing(r.lastFill, clock[1..]);
      SettledInRange(floored, max, rate, r, amount, clock[1..]);
    }
  }

  /** `consume(0)` and an amount over the bucket's size leave the bucket as it was. */
  lemma RejectedLeavesBucket(floored: bool, max: real, rate: real, b: Bucket, amount: int, clock: seq<real>)
    requires amount == 0 || amount as real > max
    ensures Consumed(floored, max, rate, b, amount, clock).0 == b
    ensures Consumed(floored, max, rate, b, amount, clock).1 ==
              (if amount == 0 then Ok(Done) else Err(ValueError("Amount exceeds bucket size.")))
  {
  }

  /** A full bucket serves any amount up to its size at once, on the first reading. */
  lemma FullBucketServes(floored: bool, max: real, rate: real, b: Bucket, amount: int, now: real)
    requires rate >= 0.0 && b.level == max && b.lastFill <= now && 0 < amount && amount as real <= max
    ensures Consumed(floored, max, rate, b, amount, [now]) == (Bucket(max - amount as real, now), Ok(Done))
  {
    RefillNeverLowers(floored, max, rate, b, now);
  }
}
