/** The rate limiter as the program keeps it: counters incremented in place. */
module RateLimiters {
  import Spec = RateLimits
  import opened RateLimits

  class RateLimiter {
    var entries: map<Key, Entry>
    const lag: nat

    function Model(): Store
      reads this
    {
      Store(entries, lag)
    }

    constructor (lag: nat)
      ensures Model() == Store(map[], lag)
    {
      entries, this.lag := map[], lag;
    }

    method Increment(key: Key, now: int) returns (current: nat)
      modifies this
      ensures current == if IsAlive(old(Model()), key, now) then old(entries)[key].count + 1 else 1
      ensures entries ==
              old(entries)[key := if IsAlive(old(Model()), key, now) then old(entries)[key].(count := current)
                  else Entry(1, now)]
    {
      if key in entries && now < entries[key].expiresAt + lag {
        current := entries[key].count + 1;
        entries := entries[key := entries[key].(count := current)];
      } else {
        current := 1;
        entries := entries[key := Entry(1, now)];
      }
    }

    method Consume(key: Key, limit: int, windowSeconds: int, now: int) returns (verdict: Verdict)
      modifies this
      ensures (Model(), verdict) == Spec.Consume(old(Model()), Call(key, limit, windowSeconds, now))
    {
      ghost var before := entries;
      var current := Increment(key, now);
      if current == 1 {
        if windowSeconds > 0 {
          entries := entries[key := entries[key].(expiresAt := now + 1000 * windowSeconds)];
          assert entries == before[key := Entry(1, now + 1000 * windowSeconds)];
        } else {
          entries := entries - {key};
          assert entries == before - {key};
        }
      }
      verdict := Verdict(current <= limit, if limit > current then limit - current else 0);
    }
  }
}
