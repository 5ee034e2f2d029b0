/** The login failure counter and lock, as a bound on password guesses. */
module Login {
  import opened Common

  const MAX_LOGIN_FAILURES := 5

  /** Fifteen minutes, in seconds. */
  const LOGIN_LOCK_DURATION := 900

  datatype Account = Account(failures: nat, lockedUntil: Option<int>)

  datatype Reply = Locked | Refused | LoggedIn

  /** One login: the account afterwards and the reply; good means right password and active account. */
  function Attempted(u: Account, now: int, good: bool): (Account, Reply) {
    if u.lockedUntil.Some? && u.lockedUntil.value > now then (u, Locked)
    else
      var v := if u.lockedUntil.Some? then Account(0, None) else u;
      if !good then
        var failures := if v.failures + 1 < MAX_LOGIN_FAILURES then v.failures + 1 else MAX_LOGIN_FAILURES;
        (Account(failures, if failures >= MAX_LOGIN_FAILURES then Some(now + LOGIN_LOCK_DURATION) else v.lockedUntil),
         Refused)
      else
        (Account(0, None), LoggedIn)
  }

  class UserRow {
    var failedLoginCount: nat
    var lockedUntil: Option<int>
    var lastLoginAt: Option<int>

    function Value(): Account
      reads this
    {
      Account(failedLoginCount, lockedUntil)
    }

    method LogIn(now: int, passwordValid: bool, active: bool) returns (reply: Reply)
      modifies this
      ensures (Value(), reply) == Attempted(old(Value()), now, passwordValid && active)
      ensures lastLoginAt == if reply == LoggedIn then Some(now) else old(lastLoginAt)
    {
      if lockedUntil.Some? && lockedUntil.value > now {
        return Locked;
      }
      if lockedUntil.Some? {
        lockedUntil := None;
        failedLoginCount := 0;
      }
      if !passwordValid || !active {
        failedLoginCount :=
          if failedLoginCount + 1 <= MAX_LOGIN_FAILURES then failedLoginCount + 1 else MAX_LOGIN_FAILURES;
        if failedLoginCount >= MAX_LOGIN_FAILURES {
          lockedUntil := Some(now + LOGIN_LOCK_DURATION);
        }
        return Refused;
      }
      failedLoginCount := 0;
      lockedUntil := None;
      lastLoginAt := Some(now);
      reply := LoggedIn;
    }
  }

  // ----- sequences of events on one account -----

  datatype Event = Attempt(now: int, good: bool) | Reset(now: int)

  const NEW := Account(0, None)

  function After(u: Account, e: Event): Account {
    match e
    case Attempt(now, good) => Attempted(u, now, good).0
    case Reset(_) => NEW
  }

  function Final(u: Account, events: seq<Event>): Account
    decreases |events|
  {
    if events == [] then u else Final(After(u, events[0]), events[1..])
  }

  /** A stored lock goes with a full counter, and only with one. */
  predicate Consistent(u: Account) {
    u.failures <= MAX_LOGIN_FAILURES && (u.lockedUntil.Some? <==> u.failures == MAX_LOGIN_FAILURES)
  }

  lemma {:induction false} AlwaysConsistent(u: Account, events: seq<Event>)
    requires Consistent(u)
    ensures Consistent(Final(u, events))
    decreases |events|
  {
    if events != [] {
      AlwaysConsistent(After(u, events[0]), events[1..]);
    }
  }

  /** The attempts, among these events, that get as far as the real password check. */
  function Checks(u: Account, events: seq<Event>): nat
    decreases |events|
  {
    if events == [] then 0
    else
      (if events[0].Attempt? && Attempted(u, events[0].now, events[0].good).1 != Locked then 1 else 0)
      + Checks(After(u, events[0]), events[1..])
  }

  /** Neither a login nor a reset among these events. */
  predicate OnlyRefusals(u: Account, events: seq<Event>)
    decreases |events|
  {
    events == [] ||
    (&& events[0].Attempt?
     && Attempted(u, events[0].now, events[0].good).1 != LoggedIn
     && OnlyRefusals(After(u, events[0]), events[1..]))
  }

  /** How many checks an account can still allow before a window ends. */
  function Allowance(u: Account, end: int): nat {
    if u.lockedUntil.Some? then (if u.lockedUntil.value >= end then 0 else MAX_LOGIN_FAILURES)
    else if u.failures <= MAX_LOGIN_FAILURES then MAX_LOGIN_FAILURES - u.failures
    else 0
  }

  lemma {:induction false} ChecksWithinAllowance(u: Account, events: seq<Event>, start: int)
    requires Consistent(u) && OnlyRefusals(u, events)
    requires forall e :: e in events ==> start <= e.now < start + LOGIN_LOCK_DURATION
    ensures Checks(u, events) <= Allowance(u, start + LOGIN_LOCK_DURATION)
    decreases |events|
  {
    if events != [] {
      assert events[0] in events;
      ChecksWithinAllowance(After(u, events[0]), events[1..], start);
    }
  }

  /**
   * The lock is a rate bound: whatever came before, any half-open window of fifteen minutes without a
   * login or a reset lets at most five attempts reach the password check.
   */
  lemma AtMostFivePerWindow(before: seq<Event>, window: seq<Event>, start: int)
    requires OnlyRefusals(Final(NEW, before), window)
    requires forall e :: e in window ==> start <= e.now < start + LOGIN_LOCK_DURATION
    ensures Checks(Final(NEW, before), window) <= MAX_LOGIN_FAILURES
  {
    AlwaysConsistent(NEW, before);
    ChecksWithinAllowance(Final(NEW, before), window, start);
  }

  function Failing(n: nat, now: int): seq<Event> {
    if n == 0 then [] else [Attempt(now, false)] + Failing(n - 1, now)
  }

  lemma {:induction false} FailuresCount(failures: nat, n: nat, now: int)
    requires failures < MAX_LOGIN_FAILURES && failures + n == MAX_LOGIN_FAILURES
    ensures var u, late := Account(failures, None), Attempt(now + LOGIN_LOCK_DURATION, false);
      && OnlyRefusals(u, Failing(n, now)) && Checks(u, Failing(n, now)) == n
      && OnlyRefusals(u, Failing(n, now) + [late]) && Checks(u, Failing(n, now) + [late]) == n + 1
    decreases n
  {
    var u, late := Account(failures, None), Attempt(now + LOGIN_LOCK_DURATION, false);
    var rest := Failing(n - 1, now);
    assert Failing(n, now)[1..] == rest;
    assert (Failing(n, now) + [late])[1..] == rest + [late];
    if n == 1 {
      var full := Account(MAX_LOGIN_FAILURES, Some(now + LOGIN_LOCK_DURATION));
      assert rest + [late] == [late] && [late][1..] == [];
      assert Checks(full, [late]) == 1 && OnlyRefusals(full, [late]);
    } else {
      FailuresCount(failures + 1, n - 1, now);
    }
  }

  /** The bound is tight, and it is the half-open window that it bounds: one instant more admits a sixth check. */
  lemma BoundIsTight(start: int)
    ensures var five := Failing(MAX_LOGIN_FAILURES, start);
      && OnlyRefusals(NEW, five) && Checks(NEW, five) == MAX_LOGIN_FAILURES
      && Checks(NEW, five + [Attempt(start + LOGIN_LOCK_DURATION, false)]) == MAX_LOGIN_FAILURES + 1
  {
    FailuresCount(0, MAX_LOGIN_FAILURES, start);
  }

  /** A locked account is told so and nothing else happens; otherwise the password and the status decide. */
  lemma RepliesExactly(u: Account, now: int, good: bool)
    ensures var (v, reply) := (Attempted(u, now, good).0, Attempted(u, now, good).1);
      && (reply == Locked <==> u.lockedUntil.Some? && now < u.lockedUntil.value)
      && (reply == LoggedIn <==> good && reply != Locked)
      && (reply == Locked ==> v == u)
      && (reply == LoggedIn ==> v == Account(0, None))
      && (reply == Refused && u.lockedUntil.Some? ==> v == Account(1, None))
  {
  }

  predicate WrongPasswords(events: seq<Event>) {
    forall i :: 0 <= i < |events| ==> events[i].Attempt? && !events[i].good
  }

  /** Each wrong password counts one, and the fifth, at whatever times, locks for fifteen minutes. */
  lemma {:induction false} FifthLocks(failures: nat, events: seq<Event>)
    requires failures < 5 && failures + |events| <= 5 && WrongPasswords(events)
    ensures var v := Final(Account(failures, None), events);
      && v.failures == failures + |events|
      && v.lockedUntil == if v.failures == 5 then Some(events[|events| - 1].now + 900) else None
    decreases |events|
  {
    if events != [] {
      var rest := events[1..];
      var v := After(Account(failures, None), events[0]);
      if failures == 4 {
        assert rest == [];
      } else {
        assert v == Account(failures + 1, None);
        FifthLocks(failures + 1, rest);
      }
    }
  }

  /** A login starts the count afresh: the next lock takes five wrong passwords, not fewer. */
  lemma LoginResets(u: Account, now: int, events: seq<Event>)
    requires Attempted(u, now, true).1 == LoggedIn
    requires 1 <= |events| <= 5 && WrongPasswords(events)
    ensures var v := Final(After(u, Attempt(now, true)), events);
      v.lockedUntil == if |events| == 5 then Some(events[4].now + 900) else None
  {
    FifthLocks(0, events);
  }
}
