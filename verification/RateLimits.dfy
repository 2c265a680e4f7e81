/** The fixed-window rate limiter: a counter per key that is created by the first call and lives for
    one window. */
module RateLimits {
  import opened OrderedMaps

  type Key = string

  /** `lag` is how long the store keeps a key past its expiry time: 0 for a store that drops it at
      that very moment, 1 for one that keeps it through the millisecond in which it expires. */
  datatype Store = Store(entries: map<Key, Entry>, lag: nat)
  datatype Entry = Entry(count: nat, expiresAt: int)
  datatype Verdict = Verdict(allowed: bool, remaining: nat)

  datatype Call = Call(key: Key, limit: int, windowSeconds: int, now: int)

  predicate IsAlive(s: Store, key: Key, now: int) {
    key in s.entries && now < s.entries[key].expiresAt + s.lag
  }

  /** What the counter reads once this call has incremented it. */
  function CountAt(s: Store, c: Call): nat {
    if IsAlive(s, c.key, c.now) then s.entries[c.key].count + 1 else 1
  }

  /** INCR, and EXPIRE when the counter is new; an expiry that is not in the future deletes the key. */
  function Consume(s: Store, c: Call): (Store, Verdict) {
    var count := CountAt(s, c);
    var entries :=
      if count > 1 then s.entries[c.key := s.entries[c.key].(count := count)]
      else if c.windowSeconds > 0 then s.entries[c.key := Entry(1, c.now + 1000 * c.windowSeconds)]
      else s.entries - {c.key};
    (s.(entries := entries), Verdict(count <= c.limit, if c.limit > count then c.limit - count else 0))
  }

  // ---------- traces ----------

  function Run(s: Store, calls: seq<Call>): Store {
    if calls == [] then s else Consume(Run(s, calls[..|calls| - 1]), calls[|calls| - 1]).0
  }

  /** Calls come in the order of their times. */
  predicate InOrder(calls: seq<Call>) {
    forall i, j :: 0 <= i < j < |calls| ==> calls[i].now <= calls[j].now
  }

  /** Every call for the key asks for the same limit and window. */
  predicate Uniform(calls: seq<Call>, key: Key, limit: int, windowSeconds: int) {
    forall i :: 0 <= i < |calls| && calls[i].key == key ==>
        calls[i].limit == limit && calls[i].windowSeconds == windowSeconds
  }

  function NewStore(lag: nat): Store {
    Store(map[], lag)
  }

  /** The calls for the key that were allowed at times in [from, to). */
  function AllowedIn(lag: nat, calls: seq<Call>, key: Key, from: int, to: int): nat {
    if calls == [] then 0
    else
      var init, last := calls[..|calls| - 1], calls[|calls| - 1];
      AllowedIn(lag, init, key, from, to) +
      if last.key == key && from <= last.now < to && Consume(Run(NewStore(lag), init), last).1.allowed then 1 else 0
  }

  /** The calls for the key that were allowed since its counter was last created, and all of them. */
  function AllowedInLifetime(lag: nat, calls: seq<Call>, key: Key): nat {
    if calls == [] then 0
    else
      var init, last := calls[..|calls| - 1], calls[|calls| - 1];
      if last.key != key then AllowedInLifetime(lag, init, key)
      else
        (if CountAt(Run(NewStore(lag), init), last) == 1 then 0 else AllowedInLifetime(lag, init, key)) +
        if Consume(Run(NewStore(lag), init), last).1.allowed then 1 else 0
  }

  function CallsInLifetime(lag: nat, calls: seq<Call>, key: Key): nat {
    if calls == [] then 0
    else
      var init, last := calls[..|calls| - 1], calls[|calls| - 1];
      if last.key != key then CallsInLifetime(lag, init, key)
      else if CountAt(Run(NewStore(lag), init), last) == 1 then 1
      else CallsInLifetime(lag, init, key) + 1
  }

  function Min(a: int, b: int): int {
    if a < b then a else b
  }

  function Max(a: int, b: int): int {
    if a < b then b else a
  }

  lemma {:induction false} EntryCountsLifetime(lag: nat, calls: seq<Call>, key: Key)
    ensures var s := Run(NewStore(lag), calls);
            key in s.entries ==> s.entries[key].count == CallsInLifetime(lag, calls, key) > 0
  {
    if calls != [] {
      EntryCountsLifetime(lag, calls[..|calls| - 1], key);
    }
  }

  /** In each lifetime of a key's counter exactly the first `limit` calls are allowed. */
  lemma {:induction false} LifetimeAllowsTheLimit(lag: nat, calls: seq<Call>, key: Key, limit: int, windowSeconds: int)
    requires Uniform(calls, key, limit, windowSeconds)
    ensures AllowedInLifetime(lag, calls, key) == Min(CallsInLifetime(lag, calls, key), Max(0, limit)) <= Max(0, limit)
  {
    if calls != [] {
      var init := calls[..|calls| - 1];
      LifetimeAllowsTheLimit(lag, init, key, limit, windowSeconds);
      EntryCountsLifetime(lag, init, key);
    }
  }

  lemma {:induction false} NoneBefore(lag: nat, calls: seq<Call>, key: Key, from: int, to: int)
    requires forall i :: 0 <= i < |calls| ==> calls[i].now < from
    ensures AllowedIn(lag, calls, key, from, to) == 0
  {
    if calls != [] {
      NoneBefore(lag, calls[..|calls| - 1], key, from, to);
    }
  }

  /** What the interval [from, from + window) can have seen, told from the counter alone: when the
      counter was made before the interval, one call fewer than it counts; when it was made in the
      interval, what it counts and what an earlier one left over. */
  predicate Accounted(allowed: nat, e: Option<Entry>, limit: int, window: int, from: int) {
    match e
    case None => allowed == 0
    case Some(entry) =>
      var made := entry.expiresAt - window;
      && entry.count > 0
      && allowed <= (if made < from then Max(0, Min(entry.count, limit) - 1)
                     else if made < from + window then Max(0, Min(entry.count, limit)) + Max(0, limit - 1)
                     else Max(0, 2 * limit - 1))
  }

  function EntryOf(s: Store, key: Key): Option<Entry> {
    if key in s.entries then Some(s.entries[key]) else None
  }

  lemma OneMoreCall(s: Store, c: Call, allowed: nat, from: int)
    requires c.windowSeconds > 0
    requires Accounted(allowed, EntryOf(s, c.key), c.limit, 1000 * c.windowSeconds, from)
    requires c.key in s.entries ==> s.entries[c.key].expiresAt - 1000 * c.windowSeconds <= c.now
    requires c.now < from ==> allowed == 0
    ensures var (s', verdict) := Consume(s, c);
            var hit := from <= c.now < from + 1000 * c.windowSeconds && verdict.allowed;
            && Accounted(allowed + (if hit then 1 else 0), EntryOf(s', c.key), c.limit, 1000 * c.windowSeconds, from)
            && s'.entries[c.key].expiresAt - 1000 * c.windowSeconds <= c.now
  {
  }

  lemma {:induction false} AccountedThroughout(lag: nat, calls: seq<Call>, key: Key, limit: int, windowSeconds: int,
      from: int)
    requires InOrder(calls) && Uniform(calls, key, limit, windowSeconds) && windowSeconds > 0
    ensures var s := Run(NewStore(lag), calls);
            && Accounted(AllowedIn(lag, calls, key, from, from + 1000 * windowSeconds), EntryOf(s, key), limit,
                         1000 * windowSeconds, from)
            && (key in s.entries ==>
                 calls != [] && s.entries[key].expiresAt - 1000 * windowSeconds <= calls[|calls| - 1].now)
  {
    hide Accounted;
    if calls == [] {
      NothingYet(limit, 1000 * windowSeconds, from);
    } else {
      var init, last := calls[..|calls| - 1], calls[|calls| - 1];
      AccountedThroughout(lag, init, key, limit, windowSeconds, from);
      if last.key == key {
        if last.now < from {
          NoneBefore(lag, init, key, from, from + 1000 * windowSeconds);
        }
        OneMoreCall(Run(NewStore(lag), init), last, AllowedIn(lag, init, key, from, from + 1000 * windowSeconds),
                    from);
      }
    }
  }

  lemma NothingYet(limit: int, window: int, from: int)
    ensures Accounted(0, None, limit, window, from)
  {
  }

  /** Over every trace, whatever other keys do, at most twice the limit less one calls of a key are
      allowed in any half-open interval as long as its window. */
  lemma AtMostTwiceTheLimit(lag: nat, calls: seq<Call>, key: Key, limit: int, windowSeconds: int, from: int)
    requires InOrder(calls) && Uniform(calls, key, limit, windowSeconds)
    ensures AllowedIn(lag, calls, key, from, from + 1000 * windowSeconds) <= Max(0, 2 * limit - 1)
  {
    if windowSeconds > 0 {
      AccountedThroughout(lag, calls, key, limit, windowSeconds, from);
    } else {
      NoneInNothing(lag, calls, key, from, from + 1000 * windowSeconds);
    }
  }

  lemma {:induction false} NoneInNothing(lag: nat, calls: seq<Call>, key: Key, from: int, to: int)
    requires to <= from
    ensures AllowedIn(lag, calls, key, from, to) == 0
  {
    if calls != [] {
      NoneInNothing(lag, calls[..|calls| - 1], key, from, to);
    }
  }

  // ---------- the bound is reached ----------

  function Repeat(c: Call, n: nat): seq<Call> {
    if n == 0 then [] else Repeat(c, n - 1) + [c]
  }

  lemma {:induction false} RepeatIs(c: Call, n: nat)
    ensures |Repeat(c, n)| == n && forall i :: 0 <= i < n ==> Repeat(c, n)[i] == c
  {
    if n > 0 {
      RepeatIs(c, n - 1);
    }
  }

  /** A burst of calls at one moment of a counter's life. */
  lemma {:induction false} Burst(lag: nat, before: seq<Call>, c: Call, n: nat, from: int, to: int)
    requires IsAlive(Run(NewStore(lag), before), c.key, c.now) && from <= c.now < to
    requires Run(NewStore(lag), before).entries[c.key].count > 0
    ensures var s, s' := Run(NewStore(lag), before), Run(NewStore(lag), before + Repeat(c, n));
            && c.key in s'.entries && s'.lag == s.lag
            && s'.entries[c.key] == s.entries[c.key].(count := s.entries[c.key].count + n)
            && (s.entries[c.key].count + n <= c.limit ==>
                  AllowedIn(lag, before + Repeat(c, n), c.key, from, to) == AllowedIn(lag, before, c.key, from, to) + n)
  {
    if n == 0 {
      assert before + Repeat(c, n) == before;
    } else {
      Burst(lag, before, c, n - 1, from, to);
      assert (before + Repeat(c, n))[..|before + Repeat(c, n)| - 1] == before + Repeat(c, n - 1);
    }
  }

  /** One call, then the rest of the limit as late as may be, then a full limit in the next lifetime. */
  function WorstCase(lag: nat, key: Key, limit: int, windowSeconds: int): seq<Call>
    requires limit >= 1
  {
    var w := 1000 * windowSeconds;
    [Call(key, limit, windowSeconds, 0)] + Repeat(Call(key, limit, windowSeconds, w - 1), limit - 1)
    + [Call(key, limit, windowSeconds, w + lag)] + Repeat(Call(key, limit, windowSeconds, w + lag), limit - 1)
  }

  lemma WorstCaseInOrder(lag: nat, key: Key, limit: int, windowSeconds: int)
    requires limit >= 1 && windowSeconds > 0
    ensures var calls := WorstCase(lag, key, limit, windowSeconds);
            InOrder(calls) && Uniform(calls, key, limit, windowSeconds)
  {
    var w := 1000 * windowSeconds;
    RepeatIs(Call(key, limit, windowSeconds, w - 1), limit - 1);
    RepeatIs(Call(key, limit, windowSeconds, w + lag), limit - 1);
  }

  lemma OneLast(lag: nat, init: seq<Call>, last: Call, from: int, to: int)
    ensures Run(NewStore(lag), init + [last]) == Consume(Run(NewStore(lag), init), last).0
    ensures AllowedIn(lag, init + [last], last.key, from, to) ==
            AllowedIn(lag, init, last.key, from, to) +
            if from <= last.now < to && Consume(Run(NewStore(lag), init), last).1.allowed then 1 else 0
  {
    assert (init + [last])[..|init|] == init;
  }

  lemma {:induction false} RunLag(lag: nat, calls: seq<Call>)
    ensures Run(NewStore(lag), calls).lag == lag
  {
    if calls != [] {
      RunLag(lag, calls[..|calls| - 1]);
    }
  }

  /** For every limit and window the bound is reached. */
  lemma BoundIsReached(lag: nat, key: Key, limit: int, windowSeconds: int)
    requires limit >= 1 && windowSeconds > 0 && lag + 2 <= 1000 * windowSeconds
    ensures var calls := WorstCase(lag, key, limit, windowSeconds);
            && InOrder(calls) && Uniform(calls, key, limit, windowSeconds)
            && AllowedIn(lag, calls, key, lag + 1, lag + 1 + 1000 * windowSeconds) == 2 * limit - 1
  {
    hide Run, AllowedIn, Repeat, InOrder, Uniform;
    WorstCaseInOrder(lag, key, limit, windowSeconds);
    var w := 1000 * windowSeconds;
    var from, to := lag + 1, lag + 1 + w;
    var first, late := Call(key, limit, windowSeconds, 0), Call(key, limit, windowSeconds, w - 1);
    var next := Call(key, limit, windowSeconds, w + lag);
    NothingRun(lag, key, from, to);
    OneLast(lag, [], first, from, to);
    assert [] + [first] == [first];
    Burst(lag, [first], late, limit - 1, from, to);
    var two := [first] + Repeat(late, limit - 1);
    RunLag(lag, [first]);
    OneLast(lag, two, next, from, to);
    RunLag(lag, two + [next]);
    Burst(lag, two + [next], next, limit - 1, from, to);
  }

  lemma NothingRun(lag: nat, key: Key, from: int, to: int)
    ensures Run(NewStore(lag), []) == NewStore(lag) && AllowedIn(lag, [], key, from, to) == 0
  {
  }

  /** What a verdict says remains is true: while the counter lives the next call is allowed exactly
      when something remained, and leaves one less. */
  lemma RemainingIsHonest(s: Store, c: Call, later: int)
    requires c.now <= later && c.windowSeconds > 0
    ensures var (s', verdict) := Consume(s, c);
            IsAlive(s', c.key, later) ==>
              var (_, next) := Consume(s', c.(now := later));
              && next.allowed == (verdict.remaining > 0)
              && (next.allowed ==> next.remaining == verdict.remaining - 1)
  {
  }

  // ---------- what the verdicts say, told from the calls alone ----------

  /** The counter of a key: when its first call came, for how many seconds it was to live, and how many
      calls it has counted, 0 when there never was one. */
  datatype Window = Window(start: int, seconds: int, calls: nat)

  /** The first call of a key starts a window; so does the first at or after the end of the last one,
      which a store that drops keys late puts off; every other call is counted in the window it is in. */
  function Current(lag: nat, calls: seq<Call>, key: Key): Window {
    if calls == [] then Window(0, 0, 0)
    else
      var w, last := Current(lag, calls[..|calls| - 1], key), calls[|calls| - 1];
      if last.key != key then w
      else if w.calls > 0 && w.seconds > 0 && last.now < w.start + 1000 * w.seconds + lag then
        w.(calls := w.calls + 1)
      else Window(last.now, last.windowSeconds, 1)
  }

  /** The store holds each key's window, unless it was to live no time at all. */
  lemma {:induction false} StoreHoldsTheWindow(lag: nat, calls: seq<Call>, key: Key)
    ensures var s, w := Run(NewStore(lag), calls), Current(lag, calls, key);
            && s.lag == lag
            && (key in s.entries <==> w.calls > 0 && w.seconds > 0)
            && (key in s.entries ==> s.entries[key] == Entry(w.calls, w.start + 1000 * w.seconds))
  {
    if calls != [] {
      StoreHoldsTheWindow(lag, calls[..|calls| - 1], key);
    }
  }

  /** What the limiter answers the call numbered `n`. */
  function VerdictAt(lag: nat, calls: seq<Call>, n: nat): Verdict
    requires n < |calls|
  {
    Consume(Run(NewStore(lag), calls[..n]), calls[n]).1
  }

  /** Every verdict is the number of the call in its window against the limit it asks for. */
  lemma VerdictIs(lag: nat, calls: seq<Call>, n: nat)
    requires n < |calls|
    ensures var number := Current(lag, calls[..n + 1], calls[n].key).calls;
            && number > 0
            && VerdictAt(lag, calls, n) ==
               Verdict(number <= calls[n].limit, if number < calls[n].limit then calls[n].limit - number else 0)
  {
    assert calls[..n + 1][..n] == calls[..n];
    StoreHoldsTheWindow(lag, calls[..n], calls[n].key);
    StoreHoldsTheWindow(lag, calls[..n + 1], calls[n].key);
  }

  function CallsFor(calls: seq<Call>, key: Key): nat {
    if calls == [] then 0
    else CallsFor(calls[..|calls| - 1], key) + if calls[|calls| - 1].key == key then 1 else 0
  }

  /** The calls for the key among those numbered from `i` to before `j` that were allowed. */
  function AllowedBetween(lag: nat, calls: seq<Call>, key: Key, i: nat, j: nat): nat
    requires i <= j <= |calls|
  {
    if i == j then 0
    else
      AllowedBetween(lag, calls, key, i, j - 1) +
      if calls[j - 1].key == key && VerdictAt(lag, calls, j - 1).allowed then 1 else 0
  }

  lemma CallsForOneMore(calls: seq<Call>, key: Key, i: nat, j: nat)
    requires i < j <= |calls|
    ensures CallsFor(calls[i..j], key) == CallsFor(calls[i..j - 1], key) + if calls[j - 1].key == key then 1 else 0
  {
    assert calls[i..j][..j - 1 - i] == calls[i..j - 1];
  }

  /** The call numbered `i` is the first of a window: it is told that all but itself remain. */
  predicate Starts(lag: nat, calls: seq<Call>, i: nat) {
    i < |calls| && calls[i].limit > 0 && VerdictAt(lag, calls, i) == Verdict(true, calls[i].limit - 1)
  }

  lemma {:induction false} WindowGoesOn(lag: nat, calls: seq<Call>, i: nat, j: nat)
    requires i < j <= |calls| && calls[i].windowSeconds > 0 && Starts(lag, calls, i)
    requires forall n :: i < n < j ==> calls[n].now < calls[i].now + 1000 * calls[i].windowSeconds + lag
    ensures Current(lag, calls[..j], calls[i].key) ==
            Window(calls[i].now, calls[i].windowSeconds, CallsFor(calls[i..j], calls[i].key))
    ensures CallsFor(calls[i..j], calls[i].key) > 0
  {
    assert calls[..j][..j - 1] == calls[..j - 1];
    CallsForOneMore(calls, calls[i].key, i, j);
    if j == i + 1 {
      VerdictIs(lag, calls, i);
      assert calls[i..i] == [];
    } else {
      WindowGoesOn(lag, calls, i, j - 1);
    }
  }

  /** A call that starts a window of w seconds at time t: before t + 1000 w, and through the store's lag,
      exactly the first `limit` calls of its key are allowed, itself among them. */
  lemma {:induction false} WindowAllowsTheLimit(lag: nat, calls: seq<Call>, key: Key, limit: int, windowSeconds: int,
      i: nat, j: nat)
    requires Uniform(calls, key, limit, windowSeconds) && windowSeconds > 0
    requires i < j <= |calls| && calls[i].key == key && Starts(lag, calls, i)
    requires forall n :: i < n < j ==> calls[n].now < calls[i].now + 1000 * windowSeconds + lag
    ensures AllowedBetween(lag, calls, key, i, j) == Min(CallsFor(calls[i..j], key), limit)
    ensures calls[j - 1].key == key ==>
              (VerdictAt(lag, calls, j - 1).allowed <==> CallsFor(calls[i..j], key) <= limit)
  {
    hide Current, VerdictAt;
    CallsForOneMore(calls, key, i, j);
    WindowGoesOn(lag, calls, i, j);
    VerdictIs(lag, calls, j - 1);
    assert calls[i..i] == [];
    if j > i + 1 {
      WindowAllowsTheLimit(lag, calls, key, limit, windowSeconds, i, j - 1);
    }
  }

  /** The next window starts with the first call of the key at or after t + 1000 w and the store's lag,
      and with none before it. */
  lemma NextWindowStarts(lag: nat, calls: seq<Call>, key: Key, limit: int, windowSeconds: int, i: nat, j: nat)
    requires Uniform(calls, key, limit, windowSeconds) && windowSeconds > 0 && limit > 0
    requires i < j < |calls| && calls[i].key == key && calls[j].key == key && Starts(lag, calls, i)
    requires forall n :: i < n < j ==> calls[n].now < calls[i].now + 1000 * windowSeconds + lag
    ensures Starts(lag, calls, j) <==> calls[j].now >= calls[i].now + 1000 * windowSeconds + lag
  {
    hide VerdictAt;
    WindowGoesOn(lag, calls, i, j);
    VerdictIs(lag, calls, j);
    assert calls[..j + 1][..j] == calls[..j];
  }

  /** The first call of a key starts a window. */
  lemma FirstCallStarts(lag: nat, calls: seq<Call>, i: nat)
    requires i < |calls| && calls[i].limit > 0
    requires forall n :: 0 <= n < i ==> calls[n].key != calls[i].key
    ensures Starts(lag, calls, i)
  {
    NoWindowYet(lag, calls[..i], calls[i].key);
    VerdictIs(lag, calls, i);
    assert calls[..i + 1][..i] == calls[..i];
  }

  lemma {:induction false} NoWindowYet(lag: nat, calls: seq<Call>, key: Key)
    requires forall n :: 0 <= n < |calls| ==> calls[n].key != key
    ensures Current(lag, calls, key).calls == 0
  {
    if calls != [] {
      NoWindowYet(lag, calls[..|calls| - 1], key);
    }
  }
}
