/**
  The transaction PIN lockout: a Redis failure counter whose expiry restarts at every wrong PIN, against
  the log of all attempts that were verified. Calls do not overlap; times are in seconds and do not decrease.
*/
module PinGuard {
  const MAX_PIN_FAILURES: int := 5
  const PIN_LOCKOUT_SECONDS: int := 900

  datatype Verdict = Verified | WrongPin | LockedOut | UnknownUser

  datatype Counter = Counter(failures: int, expiresAt: int)

  const NoCounter := Counter(0, 0)

  /** `GET pf:{user}`: an expired key reads as nothing. */
  function Failures(c: Counter, now: int): int {
    if now < c.expiresAt then c.failures else 0
  }

  /** One call. `known` is whether the user exists, `valid` whether the PIN verifies. */
  function Enforced(c: Counter, now: int, known: bool, valid: bool): (Counter, Verdict) {
    if Failures(c, now) >= MAX_PIN_FAILURES then (c, LockedOut)
    else if !known then (c, UnknownUser)
    else if valid then (NoCounter, Verified)
    else
      var n := Failures(c, now) + 1;
      (Counter(n, now + PIN_LOCKOUT_SECONDS), if n >= MAX_PIN_FAILURES then LockedOut else WrongPin)
  }

  class Guard {
    var failures: int
    var expiresAt: int

    function State(): Counter
      reads this
    {
      Counter(failures, expiresAt)
    }

    constructor ()
      ensures State() == NoCounter
    {
      failures, expiresAt := 0, 0;
    }

    method EnforcePin(now: int, known: bool, valid: bool) returns (verdict: Verdict)
      modifies this
      ensures (State(), verdict) == Enforced(old(State()), now, known, valid)
    {
      var count := if now < expiresAt then failures else 0;
      if count >= MAX_PIN_FAILURES {
        return LockedOut;
      }
      if !known {
        return UnknownUser;
      }
      if !valid {
        failures := count + 1;
        expiresAt := now + PIN_LOCKOUT_SECONDS;
        return if failures >= MAX_PIN_FAILURES then LockedOut else WrongPin;
      }
      failures, expiresAt := 0, 0;
      return Verified;
    }
  }

  // ---------- the log of verified attempts ----------

  datatype Attempt = Attempt(time: int, valid: bool)

  /** The wrong PINs in a row at the end of the log, each within the lockout time of the next, and the last
      within it of `now`. */
  function Streak(log: seq<Attempt>, now: int): nat {
    if log == [] then 0
    else
      var last := log[|log| - 1];
      if last.valid || last.time + PIN_LOCKOUT_SECONDS <= now then 0 else 1 + Streak(log[..|log| - 1], last.time)
  }

  /** The reference: a call is refused unverified exactly when the streak has reached the limit. */
  predicate Locks(log: seq<Attempt>, now: int) {
    Streak(log, now) >= MAX_PIN_FAILURES
  }

  ghost predicate Tracks(c: Counter, log: seq<Attempt>, now: int) {
    forall t | t >= now :: Failures(c, t) == Streak(log, t) <= MAX_PIN_FAILURES
  }

  datatype PinCall = PinCall(time: int, known: bool, valid: bool)

  /** The log after one call, as the reference decides. */
  function Logged(log: seq<Attempt>, call: PinCall): seq<Attempt> {
    if Locks(log, call.time) || !call.known then log else log + [Attempt(call.time, call.valid)]
  }

  lemma StreakExtends(log: seq<Attempt>, a: Attempt, now: int)
    ensures Streak(log + [a], now) ==
            if a.valid || a.time + PIN_LOCKOUT_SECONDS <= now then 0 else 1 + Streak(log, a.time)
  {
    assert (log + [a])[..|log|] == log;
  }

  /** One call decides as the log does, and keeps the counter a picture of the log. */
  lemma EnforceTracks(c: Counter, log: seq<Attempt>, before: int, call: PinCall)
    requires Tracks(c, log, before) && before <= call.time
    ensures var (next, verdict) := Enforced(c, call.time, call.known, call.valid);
            && Tracks(next, Logged(log, call), call.time)
            && (Locks(log, call.time) ==> verdict == LockedOut && next == c)
            && (!Locks(log, call.time) && call.known ==> (verdict == Verified <==> call.valid))
            && (!Locks(log, call.time) && call.known && !call.valid ==>
                  (verdict == LockedOut <==> Streak(log, call.time) == MAX_PIN_FAILURES - 1))
  {
    var now := call.time;
    assert Failures(c, now) == Streak(log, now);
    var next := Enforced(c, now, call.known, call.valid).0;
    forall t | t >= now
      ensures Failures(next, t) == Streak(Logged(log, call), t) <= MAX_PIN_FAILURES
    {
      StreakExtends(log, Attempt(now, call.valid), t);
      assert Failures(c, t) == Streak(log, t);
    }
  }

  /** The attempt at `i` was wrong, and the next one, or else `now`, came within 900 seconds of it. */
  predicate WrongAt(log: seq<Attempt>, i: nat, now: int)
    requires i < |log|
  {
    !log[i].valid && (if i + 1 < |log| then log[i + 1].time else now) < log[i].time + 900
  }

  /** The last `n` attempts were wrong, each within 900 seconds of the next and the last within them of `now`. */
  ghost predicate AllWrong(log: seq<Attempt>, now: int, n: nat) {
    n <= |log| && forall i | |log| - n <= i < |log| :: WrongAt(log, i, now)
  }

  lemma {:induction false} StreakIff(log: seq<Attempt>, now: int, n: nat)
    ensures Streak(log, now) >= n <==> AllWrong(log, now, n)
  {
    if log != [] && n > 0 {
      var front, last := log[..|log| - 1], log[|log| - 1];
      StreakIff(front, last.time, n - 1);
      forall i | 0 <= i < |front|
        ensures WrongAt(front, i, last.time) == WrongAt(log, i, now)
      {
      }
      assert AllWrong(log, now, n) ==> WrongAt(log, |front|, now);
    }
  }

  function RunCounter(c: Counter, calls: seq<PinCall>): Counter
    decreases |calls|
  {
    if calls == [] then c
    else RunCounter(Enforced(c, calls[0].time, calls[0].known, calls[0].valid).0, calls[1..])
  }

  function RunLog(log: seq<Attempt>, calls: seq<PinCall>): seq<Attempt>
    decreases |calls|
  {
    if calls == [] then log else RunLog(Logged(log, calls[0]), calls[1..])
  }

  ghost predicate InOrder(before: int, calls: seq<PinCall>)
    decreases |calls|
  {
    calls == [] || (before <= calls[0].time && InOrder(calls[0].time, calls[1..]))
  }

  function Last(before: int, calls: seq<PinCall>): int {
    if calls == [] then before else calls[|calls| - 1].time
  }

  /** After any calls, the counter locks exactly when the last five verified attempts were wrong, none more
      than the lockout time apart; and there are never more than five wrong attempts in such a streak. */
  lemma {:induction false} GuardIsReference(c: Counter, log: seq<Attempt>, before: int, calls: seq<PinCall>)
    requires Tracks(c, log, before) && InOrder(before, calls)
    ensures Tracks(RunCounter(c, calls), RunLog(log, calls), Last(before, calls))
    decreases |calls|
  {
    if calls != [] {
      EnforceTracks(c, log, before, calls[0]);
      GuardIsReference(Enforced(c, calls[0].time, calls[0].known, calls[0].valid).0,
                       Logged(log, calls[0]), calls[0].time, calls[1..]);
      assert Last(calls[0].time, calls[1..]) == Last(before, calls);
    }
  }

  lemma FreshGuardTracks(now: int)
    requires now >= 0
    ensures Tracks(NoCounter, [], now)
  {
  }

  /** After any calls since the beginning, the next one is refused unverified, and changes nothing, exactly when
      the last five verified attempts were wrong and each less than 900 seconds old at the next; otherwise a
      right PIN clears the counter and a wrong one keeps it for 900 seconds more. */
  lemma GuardDecides(calls: seq<PinCall>, call: PinCall)
    requires InOrder(0, calls) && Last(0, calls) <= call.time
    ensures var c, log := RunCounter(NoCounter, calls), RunLog([], calls);
            var (next, verdict) := Enforced(c, call.time, call.known, call.valid);
            if AllWrong(log, call.time, 5) then next == c && verdict == LockedOut
            else if !call.known then next == c && verdict == UnknownUser
            else if call.valid then next == NoCounter && verdict == Verified
            else && next.expiresAt == call.time + 900
                 && verdict == if AllWrong(log, call.time, 4) then LockedOut else WrongPin
  {
    FreshGuardTracks(0);
    GuardIsReference(NoCounter, [], 0, calls);
    var c, log := RunCounter(NoCounter, calls), RunLog([], calls);
    StreakIff(log, call.time, 5);
    StreakIff(log, call.time, 4);
    EnforceTracks(c, log, Last(0, calls), call);
    assert Failures(c, call.time) == Streak(log, call.time);
  }

  /** While locked out, no call changes the counter or its expiry; from the expiry on, calls are verified again. */
  lemma {:induction false} LockedUntilExpiry(c: Counter, calls: seq<PinCall>, later: PinCall)
    requires c.failures >= MAX_PIN_FAILURES && later.time >= c.expiresAt
    requires forall i | 0 <= i < |calls| :: calls[i].time < c.expiresAt
    ensures RunCounter(c, calls) == c
    ensures forall i | 0 <= i < |calls| :: Enforced(c, calls[i].time, calls[i].known, calls[i].valid) == (c, LockedOut)
    ensures Enforced(RunCounter(c, calls), later.time, later.known, later.valid).1 ==
            if !later.known then UnknownUser else if later.valid then Verified else WrongPin
    decreases |calls|
  {
    if calls != [] {
      assert calls[0].time < c.expiresAt;
      LockedUntilExpiry(c, calls[1..], later);
    }
  }
}
