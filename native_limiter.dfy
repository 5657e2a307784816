/**
 * openai_client/limiter.py: the token bucket of the native client. It is the
 * bucket of gpt/limiter.py except that a refill adds the exact, fractional
 * number of tokens the elapsed time is worth.
 */
module NativeLimiter {
  import opened Wrappers
  import opened Buckets

  class TokenBucket {
    const maximumSize: real
    const consumePerSecond: real
    var currentSize: real
    var lastFillTime: real

    function State(): Bucket
      reads this
    {
      Bucket(currentSize, lastFillTime)
    }

    /** A new bucket starts full, refilling `size` tokens per minute; `now` is the clock at creation. */
    constructor (size: real, now: real)
      ensures maximumSize == size && consumePerSecond == RateFor(size)
      ensures State() == Fresh(size, now)
    {
      maximumSize := size;
      currentSize := size;
      consumePerSecond := size / 60.0;
      lastFillTime := now;
    }

    /** `_refill()` with `time.time() == now`. */
    method Refill(now: real)
      modifies this
      ensures State() == Refilled(false, maximumSize, consumePerSecond, old(State()), now)
    {
      var elapsed := now - lastFillTime;
      var refilledTokens := elapsed * consumePerSecond;
      assert refilledTokens == Buckets.Refill(false, consumePerSecond, elapsed);
      currentSize := Min(maximumSize, currentSize + refilledTokens);
      lastFillTime := now;
    }

    /**
     * `consume(amount)`, the clock reading `clock[0]` before the wait loop and
     * `clock[k]` on its k-th iteration.
     */
    method Consume(amount: int, clock: seq<real>) returns (r: Result<Status>)
      modifies this
      ensures (State(), r) == Consumed(false, maximumSize, consumePerSecond, old(State()), amount, clock)
    {
      if amount == 0 {
        return Ok(Done);
      }
      if amount as real > maximumSize {
        return Err(ValueError("Amount exceeds bucket size."));
      }
      if clock == [] {
        return Ok(Waiting);
      }
      Refill(clock[0]);
      ghost var goal := Settled(false, maximumSize, consumePerSecond, State(), amount, clock[1..]);
      var i := 1;
      while amount as real > currentSize
        invariant 1 <= i <= |clock|
        invariant Settled(false, maximumSize, consumePerSecond, State(), amount, clock[i..]) == goal
        decreases |clock| - i
      {
        if i == |clock| {
          return Ok(Waiting);
        }
        assert clock[i..][1..] == clock[i + 1..];
        Refill(clock[i]);
        i := i + 1;
      }
      currentSize := currentSize - amount as real;
      return Ok(Done);
    }
  }
}
