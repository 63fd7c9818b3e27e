/**
  The failure counter and the lockout of src/auth/auth.service.ts, with the two
  admin actions of src/admin-users/admin-users.service.ts that clear them.
 */
module SignInLockout {
  import opened Options
  import opened AdminSessions

  const MAX_FAILED_ATTEMPTS := 5
  const LOCKOUT := 900_000

  datatype Counter = Counter(failed: nat, lockedUntil: Option<int>)

  datatype Outcome = InvalidCredentials | AccountIsLocked | Challenge

  const CLEARED := Counter(0, None)

  predicate Locked(c: Counter, now: int) {
    c.lockedUntil.Some? && c.lockedUntil.value > now
  }

  function Failed(c: Counter, now: int): Counter {
    Counter(c.failed + 1, if c.failed + 1 >= MAX_FAILED_ATTEMPTS then Some(now + LOCKOUT) else None)
  }

  /** The counter a sign-in leaves, what it answers, and whether it compared the account's own password hash. */
  function SignedIn(c: Counter, active: bool, matches: bool, now: int): (Counter, Outcome, bool) {
    if !active then (c, InvalidCredentials, false)
    else if Locked(c, now) then (c, AccountIsLocked, false)
    else if matches then (CLEARED, Challenge, true)
    else (Failed(c, now), InvalidCredentials, true)
  }

  /** One admin account; `sessions` is shared with the rest of the service. */
  class Account {
    const id: nat
    const sessions: SessionService
    var active: bool
    var counter: Counter

    constructor (id: nat, sessions: SessionService)
      ensures this.id == id && this.sessions == sessions
      ensures active && counter == CLEARED
    {
      this.id, this.sessions := id, sessions;
      active, counter := true, CLEARED;
    }

    /** `matches` is the answer of the password comparison, should it be reached. */
    method Login(matches: bool, now: int) returns (outcome: Outcome, compared: bool)
      requires sessions.Valid()
      modifies this`counter, sessions`rows
      ensures sessions.Valid()
      ensures (counter, outcome, compared) == SignedIn(old(counter), active, matches, now)
      ensures sessions.rows ==
              if compared && outcome != Challenge && Locked(counter, now)
              then AllRevoked(old(sessions.rows), id, AccountLocked, now) else old(sessions.rows)
    {
      if !active { return InvalidCredentials, false; }
      if counter.lockedUntil.Some? && counter.lockedUntil.value > now { return AccountIsLocked, false; }
      if !matches {
        RegisterFailedAttempt(now);
        return InvalidCredentials, true;
      }
      counter := CLEARED;
      outcome, compared := Challenge, true;
    }

    method RegisterFailedAttempt(now: int)
      requires sessions.Valid()
      modifies this`counter, sessions`rows
      ensures sessions.Valid()
      ensures counter == Failed(old(counter), now)
      ensures sessions.rows ==
              if Locked(counter, now) then AllRevoked(old(sessions.rows), id, AccountLocked, now)
              else old(sessions.rows)
    {
      var attempts := counter.failed + 1;
      counter := Counter(attempts, if attempts >= MAX_FAILED_ATTEMPTS then Some(now + LOCKOUT) else None);
      if attempts >= MAX_FAILED_ATTEMPTS {
        var _ := sessions.RevokeAllForUser(id, AccountLocked, now);
      }
    }

    method Unlock()
      modifies this`counter
      ensures counter == CLEARED
    {
      counter := CLEARED;
    }

    method ResetPassword(now: int)
      requires sessions.Valid()
      modifies this`counter, sessions`rows
      ensures sessions.Valid()
      ensures counter == CLEARED && sessions.rows == AllRevoked(old(sessions.rows), id, Administrative, now)
    {
      counter := CLEARED;
      var _ := sessions.RevokeAllForUser(id, Administrative, now);
    }
  }

  /* ------------------------------------------------------------ runs of events */

  datatype Action = SignIn(active: bool, matches: bool) | Cleared

  /** An action and the time that has passed since the one before it. */
  datatype Event = Event(action: Action, elapsed: nat)

  function Next(c: Counter, a: Action, now: int): Counter {
    match a
    case SignIn(active, matches) => SignedIn(c, active, matches, now).0
    case Cleared => CLEARED
  }

  /** A wrong password was compared with the account's hash. */
  predicate WrongGuess(c: Counter, a: Action, now: int) {
    a.SignIn? && SignedIn(c, a.active, a.matches, now).2 && SignedIn(c, a.active, a.matches, now).1 != Challenge
  }

  /** A sign-in succeeded, or an admin unlocked the account or reset its password. */
  predicate Clears(c: Counter, a: Action, now: int) {
    a.Cleared? || SignedIn(c, a.active, a.matches, now).1 == Challenge
  }

  /** What a sign-in answers, and that only an open, active account has its password compared. */
  lemma LoginAnswersIff(c: Counter, active: bool, matches: bool, now: int)
    ensures var (after, answer, compared) := SignedIn(c, active, matches, now);
            var locked := c.lockedUntil.Some? && now < c.lockedUntil.value;
            && (answer == Challenge <==> active && !locked && matches)
            && (answer == AccountIsLocked <==> active && locked)
            && (answer == InvalidCredentials <==> !active || (!locked && !matches))
            && (compared <==> active && !locked)
            && (!compared ==> after == c)
  {
  }

  /** The counter after the events. */
  function Final(c: Counter, events: seq<Event>, now: int): Counter
    decreases |events|
  {
    if events == [] then c
    else Final(Next(c, events[0].action, now + events[0].elapsed), events[1..], now + events[0].elapsed)
  }

  /** The moments at which wrong passwords were compared since the counter was last cleared, `before` among them. */
  function Misses(c: Counter, events: seq<Event>, now: int, before: seq<int>): seq<int>
    decreases |events|
  {
    if events == [] then before
    else
      var t := now + events[0].elapsed;
      var after := if Clears(c, events[0].action, t) then []
                   else if WrongGuess(c, events[0].action, t) then before + [t] else before;
      Misses(Next(c, events[0].action, t), events[1..], t, after)
  }

  /** The counter is the number of misses, and from the fifth on the lock runs a quarter of an hour from the last. */
  ghost predicate Tells(c: Counter, misses: seq<int>) {
    && c.failed == |misses|
    && c.lockedUntil == if |misses| >= 5 then Some(misses[|misses| - 1] + 15 * 60_000) else None
  }

  /** In every run the counter tells the misses since the last success, unlock or reset, and nothing else. */
  lemma {:induction false} CounterTellsMisses(c: Counter, events: seq<Event>, now: int, before: seq<int>)
    requires Tells(c, before)
    ensures Tells(Final(c, events, now), Misses(c, events, now, before))
    decreases |events|
  {
    if events != [] {
      var t := now + events[0].elapsed;
      var after := if Clears(c, events[0].action, t) then []
                   else if WrongGuess(c, events[0].action, t) then before + [t] else before;
      assert Tells(Next(c, events[0].action, t), after);
      CounterTellsMisses(Next(c, events[0].action, t), events[1..], t, after);
    }
  }

  function Elapsed(events: seq<Event>): nat {
    if events == [] then 0 else events[0].elapsed + Elapsed(events[1..])
  }

  function WrongGuesses(c: Counter, events: seq<Event>, now: int): nat
    decreases |events|
  {
    if events == [] then 0
    else
      var t := now + events[0].elapsed;
      (if WrongGuess(c, events[0].action, t) then 1 else 0) + WrongGuesses(Next(c, events[0].action, t), events[1..], t)
  }

  function Clearings(c: Counter, events: seq<Event>, now: int): nat
    decreases |events|
  {
    if events == [] then 0
    else
      var t := now + events[0].elapsed;
      (if Clears(c, events[0].action, t) then 1 else 0) + Clearings(Next(c, events[0].action, t), events[1..], t)
  }

  /* ------------------------------------------------------ the ration of guesses */

  /** A lock is set only by the fifth failure on, and never more than a quarter of an hour ahead. */
  ghost predicate Sound(c: Counter, now: int) {
    c.lockedUntil.Some? ==> c.failed >= MAX_FAILED_ATTEMPTS && c.lockedUntil.value <= now + LOCKOUT
  }

  /** The guesses still open, each worth one lockout; while locked, the part of the lockout already served. */
  ghost function Credit(c: Counter, now: int): int {
    if Locked(c, now) then 900_000 - (c.lockedUntil.value - now)
    else if c.failed < 5 then 900_000 * (5 - c.failed) else 900_000
  }

  lemma WaitingEarnsCredit(c: Counter, now: int, elapsed: nat)
    requires Sound(c, now)
    ensures Sound(c, now + elapsed) && 0 <= Credit(c, now + elapsed) <= Credit(c, now) + elapsed
  {
  }

  lemma EventsSpendCredit(c: Counter, a: Action, now: int)
    requires Sound(c, now)
    ensures Sound(Next(c, a, now), now)
    ensures Credit(Next(c, a, now), now)
            <= Credit(c, now) - (if WrongGuess(c, a, now) then 900_000 else 0)
                              + (if Clears(c, a, now) then 4_500_000 else 0)
  {
  }

  lemma {:induction false} RunSpendsCredit(c: Counter, events: seq<Event>, now: int)
    requires Sound(c, now)
    ensures 900_000 * WrongGuesses(c, events, now)
            <= Credit(c, now) + 4_500_000 * Clearings(c, events, now) + Elapsed(events)
    decreases |events|
  {
    WaitingEarnsCredit(c, now, 0);
    if events != [] {
      var t := now + events[0].elapsed;
      WaitingEarnsCredit(c, now, events[0].elapsed);
      EventsSpendCredit(c, events[0].action, t);
      RunSpendsCredit(Next(c, events[0].action, t), events[1..], t);
    }
  }

  /**
    In any run from a cleared counter, the wrong passwords compared are at most five
    for the start and for each time the counter is cleared, plus one for every whole
    quarter of an hour that passes.
   */
  lemma WrongGuessesAreRationed(events: seq<Event>, now: int)
    ensures WrongGuesses(CLEARED, events, now)
            <= 5 + 5 * Clearings(CLEARED, events, now) + Elapsed(events) / LOCKOUT
  {
    RunSpendsCredit(CLEARED, events, now);
  }

  /** Without a clearing every comparison is a wrong guess, and at most 5 + floor(time / 15 min) are made. */
  lemma FiveGuessesThenOneAQuarter(events: seq<Event>, now: int)
    requires Clearings(CLEARED, events, now) == 0
    ensures WrongGuesses(CLEARED, events, now) <= 5 + Elapsed(events) / LOCKOUT
  {
    WrongGuessesAreRationed(events, now);
  }

  /* ------------------------------------------------------- the bound is attained */

  const WRONG := SignIn(true, false)

  function Guesses(n: nat, apart: nat): seq<Event> {
    seq(n, _ => Event(WRONG, apart))
  }

  lemma {:induction false} PatientGuesses(c: Counter, n: nat, now: int)
    requires c.failed >= 5 && c.lockedUntil == Some(now + LOCKOUT)
    ensures WrongGuesses(c, Guesses(n, LOCKOUT), now) == n && Clearings(c, Guesses(n, LOCKOUT), now) == 0
    ensures Elapsed(Guesses(n, LOCKOUT)) == n * LOCKOUT
    decreases n
  {
    if n > 0 {
      assert Guesses(n, LOCKOUT)[1..] == Guesses(n - 1, LOCKOUT);
      PatientGuesses(Next(c, WRONG, now + LOCKOUT), n - 1, now + LOCKOUT);
    }
  }

  /** With `k` failures on the counter, the rest of the five come at once. */
  lemma {:induction false} ImpatientGuesses(k: nat, n: nat, now: int)
    requires k < 5
    ensures var events := Guesses(5 - k, 0) + Guesses(n, LOCKOUT);
            && WrongGuesses(Counter(k, None), events, now) == 5 - k + n
            && Clearings(Counter(k, None), events, now) == 0
            && Elapsed(events) == n * LOCKOUT
    decreases 5 - k
  {
    var events := Guesses(5 - k, 0) + Guesses(n, LOCKOUT);
    assert events[0] == Event(WRONG, 0);
    assert events[1..] == Guesses(5 - k - 1, 0) + Guesses(n, LOCKOUT);
    if k == 4 {
      assert events[1..] == Guesses(n, LOCKOUT);
      PatientGuesses(Next(Counter(4, None), WRONG, now), n, now);
    } else {
      ImpatientGuesses(k + 1, n, now);
    }
  }

  /** For every number of quarters of an hour there is a run that makes all the guesses the bound leaves it. */
  lemma RationIsAttained(n: nat, now: int)
    ensures exists events ::
              && Clearings(CLEARED, events, now) == 0
              && Elapsed(events) == n * LOCKOUT
              && WrongGuesses(CLEARED, events, now) == 5 + Elapsed(events) / LOCKOUT
  {
    ImpatientGuesses(0, n, now);
    var events := Guesses(5, 0) + Guesses(n, LOCKOUT);
    assert WrongGuesses(CLEARED, events, now) == 5 + Elapsed(events) / LOCKOUT;
  }
}
