/**
  The sliding-window rate limiter: a sorted set that is pruned at every call and dropped when its key
  expires, against the full log of admissions. Calls do not overlap and the clock does not run backwards.
  Times are in milliseconds.
*/
module RateLimit {

  /** The members whose score is above `low`: what `ZREMRANGEBYSCORE key 0 low` leaves, scores being positive. */
  function After(scores: seq<int>, low: int): seq<int> {
    if scores == [] then []
    else After(scores[..|scores| - 1], low) + (if scores[|scores| - 1] > low then [scores[|scores| - 1]] else [])
  }

  /** The Redis key: the sorted set and the time the key expires. */
  datatype Key = Key(scores: seq<int>, expiresAt: int)

  const NoKey := Key([], 0)

  function Live(k: Key, now: int): seq<int> {
    if now < k.expiresAt then k.scores else []
  }

  function WindowStart(now: int, windowSeconds: int): int { now - windowSeconds * 1000 }

  /** One call: prune and count, then add and refresh the expiry if there is room. */
  function Check(k: Key, now: int, max: int, windowSeconds: int): (Key, bool) {
    var kept := After(Live(k, now), WindowStart(now, windowSeconds));
    if |kept| >= max then (Key(kept, k.expiresAt), false)
    else (Key(kept + [now], now + (windowSeconds + 5) * 1000), true)
  }

  class Limiter {
    var scores: seq<int>
    var expiresAt: int

    function State(): Key
      reads this
    {
      Key(scores, expiresAt)
    }

    constructor ()
      ensures State() == NoKey
    {
      scores, expiresAt := [], 0;
    }

    method CheckLimit(now: int, max: int, windowSeconds: int) returns (admitted: bool)
      modifies this
      ensures (State(), admitted) == Check(old(State()), now, max, windowSeconds)
    {
      if expiresAt <= now {
        scores := [];
      }
      scores := After(scores, WindowStart(now, windowSeconds));
      var currentCount := |scores|;
      if currentCount >= max {
        return false;
      }
      scores := scores + [now];
      expiresAt := now + (windowSeconds + 5) * 1000;
      return true;
    }
  }

  // ---------- the full log ----------

  /** The reference: admit when fewer than `max` admissions of the whole log lie in the window. */
  function Admits(log: seq<int>, now: int, max: int, windowSeconds: int): bool {
    |After(log, WindowStart(now, windowSeconds))| < max
  }

  /** The admissions of the reference for a sequence of call times. */
  function Reference(log: seq<int>, calls: seq<int>, max: int, windowSeconds: int): seq<int>
    decreases |calls|
  {
    if calls == [] then log
    else
      var admitted := if Admits(log, calls[0], max, windowSeconds) then log + [calls[0]] else log;
      Reference(admitted, calls[1..], max, windowSeconds)
  }

  /** The admissions of the pruned, expiring set. */
  function Admitted(k: Key, log: seq<int>, calls: seq<int>, max: int, windowSeconds: int): seq<int>
    decreases |calls|
  {
    if calls == [] then log
    else
      var (next, ok) := Check(k, calls[0], max, windowSeconds);
      Admitted(next, if ok then log + [calls[0]] else log, calls[1..], max, windowSeconds)
  }

  /** The clock does not run backwards over the calls. */
  ghost predicate InOrder(before: int, calls: seq<int>)
    decreases |calls|
  {
    calls == [] || (before <= calls[0] && InOrder(calls[0], calls[1..]))
  }

  /** The set keeps of the log all that a call at `now` or later can see. */
  ghost predicate Tracks(k: Key, log: seq<int>, now: int, windowSeconds: int) {
    && (forall low | low >= WindowStart(now, windowSeconds) :: After(k.scores, low) == After(log, low))
    && (forall i | 0 <= i < |log| :: log[i] <= now && log[i] + (windowSeconds + 5) * 1000 <= k.expiresAt)
  }

  lemma {:induction false} AfterAfter(s: seq<int>, a: int, b: int)
    requires a <= b
    ensures After(After(s, a), b) == After(s, b)
  {
    if s != [] {
      var front, last := s[..|s| - 1], s[|s| - 1];
      AfterAfter(front, a, b);
      if last > a {
        var kept := After(s, a);
        assert kept[..|kept| - 1] == After(front, a) && kept[|kept| - 1] == last;
      } else {
        assert After(s, a) == After(front, a);
      }
    }
  }

  lemma AfterAdd(s: seq<int>, x: int, low: int)
    ensures After(s + [x], low) == After(s, low) + (if x > low then [x] else [])
  {
    assert (s + [x])[..|s|] == s;
  }

  lemma {:induction false} AfterNone(s: seq<int>, low: int)
    requires forall i | 0 <= i < |s| :: s[i] <= low
    ensures After(s, low) == []
  {
    if s != [] { AfterNone(s[..|s| - 1], low); }
  }

  /** The key's expiry never drops a member a later call could count. */
  lemma LiveTracks(k: Key, log: seq<int>, before: int, now: int, windowSeconds: int)
    requires Tracks(k, log, before, windowSeconds) && before <= now && windowSeconds >= 0
    ensures forall low | low >= WindowStart(now, windowSeconds) :: After(Live(k, now), low) == After(log, low)
  {
    forall low | low >= WindowStart(now, windowSeconds)
      ensures After(Live(k, now), low) == After(log, low)
    {
      if now >= k.expiresAt {
        AfterNone(log, low);
      }
    }
  }

  lemma CheckAdmits(k: Key, log: seq<int>, before: int, now: int, max: int, windowSeconds: int)
    requires Tracks(k, log, before, windowSeconds) && before <= now && windowSeconds >= 0
    ensures Check(k, now, max, windowSeconds).1 == Admits(log, now, max, windowSeconds)
  {
    LiveTracks(k, log, before, now, windowSeconds);
  }

  lemma CheckTracks(k: Key, log: seq<int>, before: int, now: int, max: int, windowSeconds: int)
    requires Tracks(k, log, before, windowSeconds) && before <= now && windowSeconds >= 0
    ensures Check(k, now, max, windowSeconds).1 == Admits(log, now, max, windowSeconds)
    ensures Tracks(Check(k, now, max, windowSeconds).0,
                   if Admits(log, now, max, windowSeconds) then log + [now] else log, now, windowSeconds)
  {
    var start := WindowStart(now, windowSeconds);
    LiveTracks(k, log, before, now, windowSeconds);
    assert After(Live(k, now), start) == After(log, start);
    PrunedTracks(Live(k, now), log, now, start);
  }

  /** Pruning and adding keep the set and the log alike from the window start on. */
  lemma PrunedTracks(live: seq<int>, log: seq<int>, now: int, start: int)
    requires forall low | low >= start :: After(live, low) == After(log, low)
    ensures forall low | low >= start :: After(After(live, start), low) == After(log, low)
    ensures forall low | low >= start :: After(After(live, start) + [now], low) == After(log + [now], low)
  {
    forall low | low >= start
      ensures After(After(live, start), low) == After(log, low)
      ensures After(After(live, start) + [now], low) == After(log + [now], low)
    {
      AfterAfter(live, start, low);
      AfterAdd(After(live, start), now, low);
      AfterAdd(log, now, low);
    }
  }

  /** The limiter admits exactly the calls the full log would. */
  lemma {:induction false} LimiterIsReference(
      k: Key, log: seq<int>, before: int, calls: seq<int>, max: int, windowSeconds: int)
    requires Tracks(k, log, before, windowSeconds) && windowSeconds >= 0
    requires InOrder(before, calls)
    ensures Admitted(k, log, calls, max, windowSeconds) == Reference(log, calls, max, windowSeconds)
    decreases |calls|
  {
    if calls != [] {
      CheckTracks(k, log, before, calls[0], max, windowSeconds);
      var next := Check(k, calls[0], max, windowSeconds);
      LimiterIsReference(next.0, if next.1 then log + [calls[0]] else log, calls[0], calls[1..], max, windowSeconds);
    }
  }

  // ---------- the bound ----------

  function InWindow(s: seq<int>, low: int, high: int): nat {
    if s == [] then 0 else InWindow(s[..|s| - 1], low, high) + (if low < s[|s| - 1] <= high then 1 else 0)
  }

  lemma {:induction false} InWindowAfter(s: seq<int>, low: int, high: int, from: int)
    requires from <= low
    ensures InWindow(s, low, high) <= |After(s, from)|
  {
    if s != [] { InWindowAfter(s[..|s| - 1], low, high, from); }
  }

  /** At most `max` admissions lie in any window of the length the limiter was given. */
  ghost predicate Bounded(log: seq<int>, max: int, windowSeconds: int) {
    forall t :: InWindow(log, WindowStart(t, windowSeconds), t) <= Capacity(max)
  }

  function Capacity(max: int): nat { if max < 0 then 0 else max }

  lemma AdmissionKeepsBound(log: seq<int>, now: int, max: int, windowSeconds: int)
    requires Bounded(log, max, windowSeconds) && Admits(log, now, max, windowSeconds)
    ensures Bounded(log + [now], max, windowSeconds)
  {
    var log' := log + [now];
    assert log'[..|log|] == log;
    forall t
      ensures InWindow(log', WindowStart(t, windowSeconds), t) <= Capacity(max)
    {
      if now <= t {
        InWindowAfter(log, WindowStart(t, windowSeconds), t, WindowStart(now, windowSeconds));
      }
    }
  }

  lemma {:induction false} ReferenceBounded(log: seq<int>, calls: seq<int>, max: int, windowSeconds: int)
    requires Bounded(log, max, windowSeconds)
    ensures Bounded(Reference(log, calls, max, windowSeconds), max, windowSeconds)
    decreases |calls|
  {
    if calls != [] {
      if Admits(log, calls[0], max, windowSeconds) {
        AdmissionKeepsBound(log, calls[0], max, windowSeconds);
        ReferenceBounded(log + [calls[0]], calls[1..], max, windowSeconds);
      } else {
        ReferenceBounded(log, calls[1..], max, windowSeconds);
      }
    }
  }

  // ---------- the decision, in milliseconds ----------

  /** The admissions of the log later than `low`, as positions. */
  function Later(log: seq<int>, low: int): set<int> {
    set i | 0 <= i < |log| && low < log[i]
  }

  lemma {:induction false} CountLater(log: seq<int>, low: int)
    ensures |After(log, low)| == |Later(log, low)|
  {
    if log != [] {
      var n := |log| - 1;
      CountLater(log[..n], low);
      assert Later(log, low) == Later(log[..n], low) + if low < log[n] then {n} else {};
    }
  }

  /** The positions of the log that lie in the window. */
  function Within(log: seq<int>, low: int, high: int): set<int> {
    set i | 0 <= i < |log| && low < log[i] <= high
  }

  lemma {:induction false} CountWithin(log: seq<int>, low: int, high: int)
    ensures InWindow(log, low, high) == |Within(log, low, high)|
  {
    if log != [] {
      var n := |log| - 1;
      CountWithin(log[..n], low, high);
      assert Within(log, low, high) == Within(log[..n], low, high) + if low < log[n] <= high then {n} else {};
    }
  }

  /** The key after a sequence of calls. */
  function KeyAfter(k: Key, calls: seq<int>, max: int, windowSeconds: int): Key
    decreases |calls|
  {
    if calls == [] then k else KeyAfter(Check(k, calls[0], max, windowSeconds).0, calls[1..], max, windowSeconds)
  }

  function Last(before: int, calls: seq<int>): int {
    if calls == [] then before else calls[|calls| - 1]
  }

  lemma CallTracks(k: Key, log: seq<int>, before: int, now: int, max: int, windowSeconds: int)
    requires Tracks(k, log, before, windowSeconds) && before <= now && windowSeconds >= 0
    ensures var (next, admitted) := Check(k, now, max, windowSeconds);
            Tracks(next, if admitted then log + [now] else log, now, windowSeconds)
  {
    CheckTracks(k, log, before, now, max, windowSeconds);
  }

  lemma {:induction false} CallsTrack(
      k: Key, log: seq<int>, before: int, calls: seq<int>, max: int, windowSeconds: int)
    requires Tracks(k, log, before, windowSeconds) && windowSeconds >= 0 && InOrder(before, calls)
    ensures Tracks(KeyAfter(k, calls, max, windowSeconds), Admitted(k, log, calls, max, windowSeconds),
                   Last(before, calls), windowSeconds)
    decreases |calls|
  {
    if calls != [] {
      CallTracks(k, log, before, calls[0], max, windowSeconds);
      var next := Check(k, calls[0], max, windowSeconds);
      CallsTrack(next.0, if next.1 then log + [calls[0]] else log, calls[0], calls[1..], max, windowSeconds);
      assert Last(calls[0], calls[1..]) == Last(before, calls);
    }
  }

  /** After any calls, the next one is admitted exactly when fewer than `max` of the admissions lie less than
      `windowSeconds` seconds back; it then keeps the key for five seconds more than the window, and a refused
      one leaves the expiry alone. */
  lemma LimiterExact(before: int, calls: seq<int>, now: int, max: int, windowSeconds: int)
    requires InOrder(before, calls) && Last(before, calls) <= now && windowSeconds >= 0
    ensures var k, log := KeyAfter(NoKey, calls, max, windowSeconds), Admitted(NoKey, [], calls, max, windowSeconds);
            var (next, admitted) := Check(k, now, max, windowSeconds);
            && (admitted <==> |Later(log, now - windowSeconds * 1000)| < max)
            && next.expiresAt == (if admitted then now + (windowSeconds + 5) * 1000 else k.expiresAt)
  {
    var k, log := KeyAfter(NoKey, calls, max, windowSeconds), Admitted(NoKey, [], calls, max, windowSeconds);
    CallsTrack(NoKey, [], before, calls, max, windowSeconds);
    AdmittedIff(k, log, Last(before, calls), now, max, windowSeconds);
    ExpiryRefreshed(k, now, max, windowSeconds);
  }

  lemma AdmittedIff(k: Key, log: seq<int>, before: int, now: int, max: int, windowSeconds: int)
    requires Tracks(k, log, before, windowSeconds) && before <= now && windowSeconds >= 0
    ensures Check(k, now, max, windowSeconds).1 <==> |Later(log, now - windowSeconds * 1000)| < max
  {
    CheckAdmits(k, log, before, now, max, windowSeconds);
    AdmitsIff(log, now, max, windowSeconds);
  }

  lemma AdmitsIff(log: seq<int>, now: int, max: int, windowSeconds: int)
    ensures Admits(log, now, max, windowSeconds) <==> |Later(log, now - windowSeconds * 1000)| < max
  {
    CountLater(log, now - windowSeconds * 1000);
  }

  lemma ExpiryRefreshed(k: Key, now: int, max: int, windowSeconds: int)
    ensures var (next, admitted) := Check(k, now, max, windowSeconds);
            next.expiresAt == if admitted then now + (windowSeconds + 5) * 1000 else k.expiresAt
  {
  }

  /** From no key: the limiter decides as the full log would, and the window that ends at `t` holds at most
      `max` admissions. */
  lemma LimiterBound(before: int, calls: seq<int>, max: int, windowSeconds: int, t: int)
    requires InOrder(before, calls) && windowSeconds >= 0
    ensures Admitted(NoKey, [], calls, max, windowSeconds) == Reference([], calls, max, windowSeconds)
    ensures var n := |Within(Admitted(NoKey, [], calls, max, windowSeconds), t - windowSeconds * 1000, t)|;
            n == 0 || n <= max
  {
    LimiterFromNothing(before, calls, max, windowSeconds);
    LogBounded(before, calls, max, windowSeconds);
    BoundedAt(Admitted(NoKey, [], calls, max, windowSeconds), max, windowSeconds, t);
  }

  lemma BoundedAt(log: seq<int>, max: int, windowSeconds: int, t: int)
    requires Bounded(log, max, windowSeconds)
    ensures var n := |Within(log, t - windowSeconds * 1000, t)|; n == 0 || n <= max
  {
    CountWithin(log, t - windowSeconds * 1000, t);
    assert InWindow(log, WindowStart(t, windowSeconds), t) <= Capacity(max);
  }

  lemma LogBounded(before: int, calls: seq<int>, max: int, windowSeconds: int)
    requires InOrder(before, calls) && windowSeconds >= 0
    ensures Bounded(Admitted(NoKey, [], calls, max, windowSeconds), max, windowSeconds)
  {
    LimiterFromNothing(before, calls, max, windowSeconds);
    ReferenceBounded([], calls, max, windowSeconds);
  }

  lemma LimiterFromNothing(before: int, calls: seq<int>, max: int, windowSeconds: int)
    requires InOrder(before, calls) && windowSeconds >= 0
    ensures Admitted(NoKey, [], calls, max, windowSeconds) == Reference([], calls, max, windowSeconds)
  {
    LimiterIsReference(NoKey, [], before, calls, max, windowSeconds);
  }
}
