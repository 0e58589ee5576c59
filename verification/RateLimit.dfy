/** The middleware: the shared counter when Redis answers, the in-memory bucket when it does not. */
module RateLimit {
  import opened Domain
  import Bucket = TokenBucket
  import Window = FixedWindow

  /** What Redis does with the request's INCR and, if that creates the key, with its EXPIRE. */
  datatype Redis = Down | Up(lag: Option<real>)

  class Middleware {
    const limit: nat
    var limiter: Bucket.RateLimiter
    var counters: map<string, Window.Counter>

    constructor (rate: Option<real>)
      ensures Valid() && limiter.View() == map[] && counters == map[]
      ensures limit == limiter.rps.Floor
    {
      var rps := if rate.Some? && rate.value > 0.0 then rate.value else 10.0;
      limit := rps.Floor;
      limiter := new Bucket.RateLimiter(rate);
      counters := map[];
    }

    ghost predicate Valid()
      reads this, limiter
    {
      limiter.Valid()
    }

    function CounterOf(key: string): Window.Counter
      reads this
    {
      if key in counters then counters[key] else Window.Absent
    }

    /** One request is decided by exactly one of the two limiters, and the other does not see it. */
    method Handle(r: Bucket.Request, redis: Redis) returns (ok: bool)
      requires Valid()
      modifies this`counters, limiter, limiter.buckets.Values
      ensures Valid() && limiter == old(limiter)
      ensures redis.Up? ==>
        var h := Window.Hit(r.now, redis.lag);
        && ok == Window.Admits(old(CounterOf(r.key)), h, limit)
        && counters == old(counters)[r.key := Window.After(old(CounterOf(r.key)), h)]
        && limiter.View() == old(limiter.View())
      ensures redis.Down? ==>
        && ok == Bucket.Admits(Bucket.Refilled(old(limiter.View()), r, limiter.rps))
        && limiter.View() == Bucket.After(old(limiter.View()), r, limiter.rps)
        && counters == old(counters)
    {
      if redis.Up? {
        var before := CounterOf(r.key);
        var count, deadline := 1, None;
        if Window.Gone(before, r.now) {
          if redis.lag.Some? {
            deadline := Some(r.now + redis.lag.value + Window.WINDOW);
          }
        } else {
          count, deadline := before.count + 1, before.deadline;
        }
        counters := counters[r.key := Window.Live(count, deadline)];
        ok := !(count > limit);
      } else {
        ok := limiter.Allow(r);
      }
    }
  }
}
