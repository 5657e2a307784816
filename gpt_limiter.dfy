/**
 * gpt/limiter.py: a token bucket whose refill is truncated to whole tokens,
 * and the `Limiter` pairing a token bucket with a request bucket, each sized
 * at 90% of the model's per-minute limits.
 */
module GptLimiter {
  import opened Wrappers
  import opened Buckets

  class TokenBucket {
    const maximumSize: real
    const consumePerSecond: real
    var currentSize: real
    var lastFillTime: real

    function State(): Bucket
      reads this
    {
      Bucket(currentSize, lastFillTime)
    }

    /** A new bucket starts full, refilling `size` tokens per minute; `now` is the clock at creation. */
    constructor (size: real, now: real)
      ensures maximumSize == size && consumePerSecond == RateFor(size)
      ensures State() == Fresh(size, now)
    {
      maximumSize := size;
      currentSize := size;
      consumePerSecond := size / 60.0;
      lastFillTime := now;
    }

    /** `_refill()` with `time.time() == now`. */
    method Refill(now: real)
      modifies this
      ensures State() == Refilled(true, maximumSize, consumePerSecond, old(State()), now)
    {
      var elapsed := now - lastFillTime;
      var refilledTokens := Trunc(elapsed * consumePerSecond);
      assert refilledTokens as real == Buckets.Refill(true, consumePerSecond, elapsed);
      currentSize := Min(maximumSize, currentSize + refilledTokens as real);
      lastFillTime := now;
    }

    /**
     * `consume(amount)`, the clock reading `clock[0]` before the wait loop and
     * `clock[k]` on its k-th iteration.
     */
    method Consume(amount: int, clock: seq<real>) returns (r: Result<Status>)
      modifies this
      ensures (State(), r) == Consumed(true, maximumSize, consumePerSecond, old(State()), amount, clock)
    {
      if amount == 0 {
        return Ok(Done);
      }
      if amount as real > maximumSize {
        return Err(ValueError("Amount exceeds bucket size."));
      }
      if clock == [] {
        return Ok(Waiting);
      }
      Refill(clock[0]);
      ghost var goal := Settled(true, maximumSize, consumePerSecond, State(), amount, clock[1..]);
      var i := 1;
      while amount as real > currentSize
        invariant 1 <= i <= |clock|
        invariant Settled(true, maximumSize, consumePerSecond, State(), amount, clock[i..]) == goal
        decreases |clock| - i
      {
        if i == |clock| {
          return Ok(Waiting);
        }
        assert clock[i..][1..] == clock[i + 1..];
        Refill(clock[i]);
        i := i + 1;
      }
      currentSize := currentSize - amount as real;
      return Ok(Done);
    }
  }

  /** `rate_limits` of a model's specification. */
  datatype RateLimits = RateLimits(tknPerMin: real, reqPerMin: real)

  class Limiter {
    const tokenBucket: TokenBucket
    const requestBucket: TokenBucket

    ghost predicate Valid()
      reads this
    {
      tokenBucket != requestBucket
    }

    constructor (limits: RateLimits, now: real)
      ensures Valid() && fresh(tokenBucket) && fresh(requestBucket)
      ensures tokenBucket.maximumSize == limits.tknPerMin * 0.9 && tokenBucket.State() == Fresh(limits.tknPerMin * 0.9, now)
      ensures requestBucket.maximumSize == limits.reqPerMin * 0.9 && requestBucket.State() == Fresh(limits.reqPerMin * 0.9, now)
    {
      tokenBucket := new TokenBucket(limits.tknPerMin * 0.9, now);
      requestBucket := new TokenBucket(limits.reqPerMin * 0.9, now);
    }

    /** `Limiter(model_specs)`: a specification without `rate_limits` raises KeyError. */
    static method Create(rateLimits: Option<RateLimits>, now: real) returns (r: Result<Limiter>)
      ensures rateLimits.None? <==> r == Err(KeyError("rate_limits"))
      ensures r.Ok? ==> && fresh(r.value) && r.value.Valid()
                        && fresh(r.value.tokenBucket) && fresh(r.value.requestBucket)
                        && r.value.tokenBucket.maximumSize == rateLimits.value.tknPerMin * 0.9
                        && r.value.requestBucket.maximumSize == rateLimits.value.reqPerMin * 0.9
    {
      if rateLimits.None? {
        return Err(KeyError("rate_limits"));
      }
      var l := new Limiter(rateLimits.value, now);
      return Ok(l);
    }

    /**
     * `limit(tokens, requests)`: the two buckets consume independently, each
     * on its own clock readings; neither outcome affects the other bucket.
     */
    method Limit(tokens: int, requests: int, tokenClock: seq<real>, requestClock: seq<real>)
      returns (tokenOutcome: Result<Status>, requestOutcome: Result<Status>)
      requires Valid()
      modifies tokenBucket, requestBucket
      ensures (tokenBucket.State(), tokenOutcome)
              == Consumed(true, tokenBucket.maximumSize, tokenBucket.consumePerSecond, old(tokenBucket.State()), tokens, tokenClock)
      ensures (requestBucket.State(), requestOutcome)
              == Consumed(true, requestBucket.maximumSize, requestBucket.consumePerSecond, old(requestBucket.State()), requests, requestClock)
    {
      tokenOutcome := tokenBucket.Consume(tokens, tokenClock);
      requestOutcome := requestBucket.Consume(requests, requestClock);
    }
  }
}
