/**
 * The login rate limiter: a per-email record of failed logins that locks the
 * email for five minutes once five failures are recorded. The key-value store
 * is a map from email to record, and the clock is an explicit `now` in
 * milliseconds.
 */
module RateLimiter {

  import opened Common

  const MaxAttempts := 5
  /** Five minutes, in milliseconds. */
  const LockDuration := 5 * 60 * 1000

  datatype LoginAttempt = LoginAttempt(count: int, lockUntil: Option<int>)

  /** `attempts.lockUntil && ...`: null and 0 are both falsy. */
  predicate HasLock(a: LoginAttempt) {
    a.lockUntil.Some? && a.lockUntil.value != 0
  }

  /** `Math.ceil(a / b)` for a positive numerator and denominator. */
  function CeilDiv(a: int, b: int): (q: int)
    requires a > 0 && b > 0
    ensures (q - 1) * b < a <= q * b
    ensures q >= 1
  {
    (a + b - 1) / b
  }

  datatype LockStatus = LockStatus(isLocked: bool, remainingTime: int, attemptsRemaining: int)

  /** The records the limiter writes: a stored record has at least one failure,
      and carries a non-zero lock exactly when it has reached the maximum. */
  ghost predicate ValidStore(store: map<string, LoginAttempt>) {
    forall e :: e in store ==>
      && store[e].count >= 1
      && (store[e].count >= MaxAttempts <==> store[e].lockUntil.Some?)
      && (store[e].lockUntil.Some? ==> store[e].lockUntil.value > 0)
  }

  /** The attempts getLoginAttempts reads: the stored record, or none yet. */
  function Attempts(store: map<string, LoginAttempt>, email: string): (a: LoginAttempt)
    ensures email !in store ==> a == LoginAttempt(0, None)
    ensures email in store ==> a == store[email]
  {
    if email in store then store[email] else LoginAttempt(0, None)
  }

  /** The store after recordFailedLogin(email) at time `now`. */
  function Recorded(store: map<string, LoginAttempt>, email: string, now: nat): (s: map<string, LoginAttempt>)
    ensures email in s && s[email].count == Attempts(store, email).count + 1
    ensures s[email].count >= MaxAttempts ==> s[email].lockUntil == Some(now + LockDuration)
    ensures s[email].count < MaxAttempts ==> s[email].lockUntil == Attempts(store, email).lockUntil
    ensures forall e :: e != email ==> (e in s <==> e in store) && (e in store ==> s[e] == store[e])
  {
    var a := Attempts(store, email);
    var counted := a.(count := a.count + 1);
    store[email := if counted.count >= MaxAttempts then counted.(lockUntil := Some(now + LockDuration)) else counted]
  }

  /** The answer of checkLoginLock(email) at time `now`, and whether it removes the record. */
  function Check(store: map<string, LoginAttempt>, email: string, now: nat): (r: (LockStatus, bool))
    ensures var a := Attempts(store, email);
            && (r.0.isLocked <==> HasLock(a) && a.lockUntil.value > now)
            && (r.1 <==> HasLock(a) && a.lockUntil.value <= now)
    ensures r.0.isLocked ==> r.0.attemptsRemaining == 0 && r.0.remainingTime >= 1
    ensures r.0.isLocked ==>
              var remaining := Attempts(store, email).lockUntil.value - now;
              (r.0.remainingTime - 1) * 60000 < remaining <= r.0.remainingTime * 60000
    ensures r.1 ==> r.0 == LockStatus(false, 0, MaxAttempts)
    ensures !r.0.isLocked && !r.1 ==> r.0 == LockStatus(false, 0, MaxAttempts - Attempts(store, email).count)
  {
    var a := Attempts(store, email);
    if HasLock(a) && a.lockUntil.value > now then
      (LockStatus(true, CeilDiv(a.lockUntil.value - now, 60 * 1000), 0), false)
    else if HasLock(a) && a.lockUntil.value <= now then
      (LockStatus(false, 0, MaxAttempts), true)
    else
      (LockStatus(false, 0, MaxAttempts - a.count), false)
  }

  /** Recording a failure keeps the store valid. */
  lemma RecordKeepsValid(store: map<string, LoginAttempt>, email: string, now: nat)
    requires ValidStore(store)
    ensures ValidStore(Recorded(store, email, now))
  {
    var s := Recorded(store, email, now);
    forall e | e in s
      ensures s[e].count >= 1
      ensures s[e].count >= MaxAttempts <==> s[e].lockUntil.Some?
      ensures s[e].lockUntil.Some? ==> s[e].lockUntil.value > 0
    {
      if e != email {
        assert s[e] == store[e];
      }
    }
  }

  /** In a valid store an email that is neither locked nor expired has
      between one and five attempts left. */
  lemma UnlockedHasAttemptsLeft(store: map<string, LoginAttempt>, email: string, now: nat)
    requires ValidStore(store)
    requires var r := Check(store, email, now); !r.0.isLocked && !r.1
    ensures 1 <= Check(store, email, now).0.attemptsRemaining <= MaxAttempts
  {
    if email in store {
      assert store[email].count >= 1;
    }
  }

  /** The failure that reaches the maximum locks the email for the full five
      minutes, from the moment it is recorded. */
  lemma FailureAtMaximumLocks(store: map<string, LoginAttempt>, email: string, now: nat)
    requires Attempts(store, email).count >= MaxAttempts - 1
    ensures var r := Check(Recorded(store, email, now), email, now).0;
            r.isLocked && r.remainingTime == 5 && r.attemptsRemaining == 0
  {
    var s := Recorded(store, email, now);
    assert Attempts(s, email).lockUntil == Some(now + LockDuration);
    assert CeilDiv(LockDuration, 60 * 1000) == 5;
  }

  /** Five failures from a clean record lock the email. */
  lemma FiveFailuresLock(store: map<string, LoginAttempt>, email: string, now: nat)
    requires email !in store
    ensures var s := Recorded(Recorded(Recorded(Recorded(Recorded(store, email, now), email, now), email, now), email, now), email, now);
            Check(s, email, now).0.isLocked
  {
    var s4 := Recorded(Recorded(Recorded(Recorded(store, email, now), email, now), email, now), email, now);
    assert Attempts(s4, email).count == 4;
    FailureAtMaximumLocks(s4, email, now);
  }

  /** The limiter with its store. */
  class LoginRateLimiter {
    var store: map<string, LoginAttempt>

    constructor ()
      ensures store == map[]
    {
      store := map[];
    }

    ghost predicate Valid()
      reads this
    {
      ValidStore(store)
    }

    /** getFailedAttempts */
    function GetFailedAttempts(email: string): (n: int)
      reads this
      ensures email !in store ==> n == 0
      ensures Valid() && email in store ==> n >= 1
    {
      Attempts(store, email).count
    }

    /** recordFailedLogin: one more failure; from the fifth on, a fresh five-minute lock. */
    method RecordFailedLogin(email: string, now: nat)
      modifies this
      ensures store == Recorded(old(store), email, now)
      ensures GetFailedAttempts(email) == old(GetFailedAttempts(email)) + 1
      ensures old(Valid()) ==> Valid()
    {
      var attempts := Attempts(store, email);
      attempts := attempts.(count := attempts.count + 1);
      if attempts.count >= MaxAttempts {
        attempts := attempts.(lockUntil := Some(now + LockDuration));
      }
      store := store[email := attempts];
      if old(Valid()) {
        RecordKeepsValid(old(store), email, now);
      }
    }

    /** resetLoginAttempts: the email's record is gone, the others stay. */
    method ResetLoginAttempts(email: string)
      modifies this
      ensures store == old(store) - {email}
      ensures GetFailedAttempts(email) == 0
      ensures forall e :: e != email && e in old(store) ==> e in store && store[e] == old(store)[e]
      ensures old(Valid()) ==> Valid()
    {
      store := store - {email};
    }

    /** checkLoginLock: an expired lock removes the record. */
    method CheckLoginLock(email: string, now: nat) returns (r: LockStatus)
      modifies this
      ensures r == Check(old(store), email, now).0
      ensures Check(old(store), email, now).1 ==> store == old(store) - {email}
      ensures !Check(old(store), email, now).1 ==> store == old(store)
      ensures old(Valid()) ==> Valid()
    {
      var attempts := Attempts(store, email);
      if attempts.lockUntil.Some? && attempts.lockUntil.value != 0 && attempts.lockUntil.value > now {
        var remainingMs := attempts.lockUntil.value - now;
        var remainingMinutes := CeilDiv(remainingMs, 60 * 1000);
        return LockStatus(true, remainingMinutes, 0);
      }
      if attempts.lockUntil.Some? && attempts.lockUntil.value != 0 && attempts.lockUntil.value <= now {
        ResetLoginAttempts(email);
        return LockStatus(false, 0, MaxAttempts);
      }
      return LockStatus(false, 0, MaxAttempts - attempts.count);
    }
  }
}
