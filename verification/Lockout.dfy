/** AuthService.login: the lockout after repeated wrong passwords, as a timed state machine. */
module Lockout {
  import opened Wrappers

  const MAX_FAILED_ATTEMPTS := 5
  const LOCKOUT_MS := 15 * 60 * 1000

  datatype User = User(active: bool, failedLoginAttempts: nat, lockedUntil: Option<int>)

  /** Whether the company of a client owner lets its user in. */
  datatype Gate = Open | Closed

  datatype Reply = LoggedIn | Disabled | Locked(until: int) | WrongPassword | CompanyBlocked

  /** `check` is the clock at the lock test, `write` the clock when the failure is stored. */
  datatype Attempt = Attempt(check: int, write: int, passwordMatch: bool, gate: Gate)

  predicate IsLocked(u: User, now: int) {
    u.lockedUntil.Some? && u.lockedUntil.value > now
  }

  /** The password is compared and wrong. */
  predicate Fails(u: User, a: Attempt) {
    u.active && !IsLocked(u, a.check) && !a.passwordMatch
  }

  predicate Succeeds(u: User, a: Attempt) {
    u.active && !IsLocked(u, a.check) && a.passwordMatch && a.gate == Open
  }

  function After(u: User, a: Attempt): User {
    if Fails(u, a) then
      var n := u.failedLoginAttempts + 1;
      u.(failedLoginAttempts := n, lockedUntil := if n >= MAX_FAILED_ATTEMPTS then Some(a.write + LOCKOUT_MS) else u.lockedUntil)
    else if Succeeds(u, a) then u.(failedLoginAttempts := 0, lockedUntil := None)
    else u
  }

  class AuthService {
    var user: User

    constructor (user: User)
      ensures this.user == user
    {
      this.user := user;
    }

    method Login(a: Attempt) returns (r: Reply)
      modifies this
      ensures user == After(old(user), a)
      ensures var locked := old(user).lockedUntil.Some? && old(user).lockedUntil.value > a.check;
        && (r == Disabled <==> !old(user).active)
        && (r.Locked? <==> old(user).active && locked) && (r.Locked? ==> r.until == old(user).lockedUntil.value)
        && (r == WrongPassword <==> old(user).active && !locked && !a.passwordMatch)
        && (r == CompanyBlocked <==> old(user).active && !locked && a.passwordMatch && a.gate == Closed)
        && (r == LoggedIn <==> old(user).active && !locked && a.passwordMatch && a.gate == Open)
      ensures r == WrongPassword ==>
        && user.active && user.failedLoginAttempts == old(user).failedLoginAttempts + 1
        && user.lockedUntil == if old(user).failedLoginAttempts >= 4 then Some(a.write + 900000) else old(user).lockedUntil
      ensures r == LoggedIn ==> user == User(true, 0, None)
      ensures r != WrongPassword && r != LoggedIn ==> user == old(user)
      ensures r == LoggedIn <==> Succeeds(old(user), a)
      ensures r == WrongPassword <==> Fails(old(user), a)
      ensures r.Locked? <==> old(user).active && IsLocked(old(user), a.check)
    {
      if !user.active {
        return Disabled;
      }
      if user.lockedUntil.Some? && user.lockedUntil.value > a.check {
        return Locked(user.lockedUntil.value);
      }
      if !a.passwordMatch {
        var newAttempts := user.failedLoginAttempts + 1;
        if newAttempts >= MAX_FAILED_ATTEMPTS {
          user := user.(failedLoginAttempts := newAttempts, lockedUntil := Some(a.write + LOCKOUT_MS));
        } else {
          user := user.(failedLoginAttempts := newAttempts);
        }
        return WrongPassword;
      }
      if a.gate == Closed {
        return CompanyBlocked;
      }
      user := user.(failedLoginAttempts := 0, lockedUntil := None);
      return LoggedIn;
    }
  }

  // ── Runs of serialised logins ────────────────────────────────────────────────

  function Run(attempts: seq<Attempt>): User {
    if attempts == [] then User(true, 0, None)
    else After(Run(attempts[..|attempts| - 1]), attempts[|attempts| - 1])
  }

  /** The times at which wrong passwords were recorded since the last successful login. */
  function Failures(attempts: seq<Attempt>): seq<int> {
    if attempts == [] then []
    else
      var n := |attempts| - 1;
      var u := Run(attempts[..n]);
      if Fails(u, attempts[n]) then Failures(attempts[..n]) + [attempts[n].write]
      else if Succeeds(u, attempts[n]) then []
      else Failures(attempts[..n])
  }

  /** One login ends before the next begins, and the clock does not run backwards. */
  predicate Monotone(attempts: seq<Attempt>) {
    && (forall i :: 0 <= i < |attempts| ==> attempts[i].check <= attempts[i].write)
    && (forall i, j :: 0 <= i < j < |attempts| ==> attempts[i].write <= attempts[j].check)
  }

  lemma {:induction false} CounterIsFailures(attempts: seq<Attempt>)
    ensures var u := Run(attempts);
      && u.active && u.failedLoginAttempts == |Failures(attempts)|
      && (|Failures(attempts)| >= MAX_FAILED_ATTEMPTS ==>
            u.lockedUntil == Some(Failures(attempts)[|Failures(attempts)| - 1] + LOCKOUT_MS))
      && (|Failures(attempts)| < MAX_FAILED_ATTEMPTS ==> u.lockedUntil == None)
  {
    if attempts != [] {
      CounterIsFailures(attempts[..|attempts| - 1]);
    }
  }

  /** From the fifth on, each recorded failure comes at least a lockout after the one before. */
  lemma {:induction false} FailuresApart(attempts: seq<Attempt>)
    requires Monotone(attempts)
    ensures var t := Failures(attempts);
      forall k :: MAX_FAILED_ATTEMPTS <= k < |t| ==> t[k] >= t[k - 1] + LOCKOUT_MS
  {
    if attempts != [] {
      var n := |attempts| - 1;
      FailuresApart(attempts[..n]);
      CounterIsFailures(attempts[..n]);
    }
  }

  lemma {:induction false} Spread(t: seq<int>, k: nat)
    requires MAX_FAILED_ATTEMPTS - 1 <= k < |t|
    requires forall i :: MAX_FAILED_ATTEMPTS <= i < |t| ==> t[i] >= t[i - 1] + LOCKOUT_MS
    ensures t[k] - t[MAX_FAILED_ATTEMPTS - 1] >= (k - (MAX_FAILED_ATTEMPTS - 1)) * LOCKOUT_MS
  {
    if k >= MAX_FAILED_ATTEMPTS {
      Spread(t, k - 1);
    }
  }

  /**
    The rate bound: the counter is the number of wrong passwords since the last success, and n >= 5
    of them at times t1..tn satisfy n <= 5 + (tn - t5) / 15 minutes.
  */
  lemma {:induction false} RateBound(attempts: seq<Attempt>)
    requires Monotone(attempts)
    ensures Run(attempts).failedLoginAttempts == |Failures(attempts)|
    ensures var t := Failures(attempts); var n := |t|;
      n >= 5 ==> n <= 5 + (t[n - 1] - t[4]) / (15 * 60 * 1000)
  {
    CounterIsFailures(attempts);
    FailuresApart(attempts);
    var t := Failures(attempts);
    if |t| >= MAX_FAILED_ATTEMPTS {
      Spread(t, |t| - 1);
      Quotient(t[|t| - 1] - t[MAX_FAILED_ATTEMPTS - 1], |t| - MAX_FAILED_ATTEMPTS);
    }
  }

  lemma Quotient(x: int, k: nat)
    requires x >= k * LOCKOUT_MS
    ensures x / LOCKOUT_MS >= k
  {
  }

  /** While locked, the right password is refused and nothing is counted; the counter outlives the lock. */
  lemma LockedIgnoresEverything(attempts: seq<Attempt>, a: Attempt)
    requires IsLocked(Run(attempts), a.check)
    ensures Run(attempts + [a]) == Run(attempts) && Failures(attempts + [a]) == Failures(attempts)
  {
    assert (attempts + [a])[..|attempts|] == attempts;
  }
}
