/** The per-account lockout of local logins (apps/api/src/auth/auth.service.ts). */
module LoginLockout {
  import opened Wrappers
  import opened Database

  const LOCKOUT_THRESHOLD: nat := 5
  const LOCKOUT_MS: int := 15 * 60_000

  datatype Account = Account(failedLoginCount: nat, lockedUntil: Option<Time>)

  /** `Refused` is no account to log in to; `Locked` answers without looking at the password. */
  datatype Outcome = Refused | Locked | Failed | Granted

  predicate IsLocked(a: Account, now: Time) {
    a.lockedUntil.Some? && a.lockedUntil.value > now
  }

  /** A failed check counts, and the fifth in a row locks and starts a fresh count. */
  function Registered(a: Account, now: Time): Account {
    if a.failedLoginCount + 1 >= LOCKOUT_THRESHOLD then Account(0, Some(now + LOCKOUT_MS))
    else a.(failedLoginCount := a.failedLoginCount + 1)
  }

  function Login(a: Account, passwordOk: bool, now: Time): (Account, Outcome) {
    if IsLocked(a, now) then (a, Locked)
    else if passwordOk then (Account(0, None), Granted)
    else (Registered(a, now), Failed)
  }

  class LocalUser {
    var active: bool
    var local: bool
    var hasPassword: bool
    var failedLoginCount: nat
    var lockedUntil: Option<Time>

    constructor ()
      ensures State() == Account(0, None) && CanLogIn()
    {
      active, local, hasPassword := true, true, true;
      failedLoginCount, lockedUntil := 0, None;
    }

    /** Only active accounts of the local provider with a password hash can log in this way. */
    predicate CanLogIn()
      reads this
    {
      active && local && hasPassword
    }

    function State(): Account
      reads this
    {
      Account(failedLoginCount, lockedUntil)
    }

    method TryLogin(passwordOk: bool, now: Time) returns (outcome: Outcome)
      modifies this`failedLoginCount, this`lockedUntil
      ensures if CanLogIn() then (State(), outcome) == Login(old(State()), passwordOk, now)
        else outcome == Refused && State() == old(State())
    {
      if !active || !local || !hasPassword {
        return Refused;
      }
      if lockedUntil.Some? && lockedUntil.value > now {
        return Locked;
      }
      if !passwordOk {
        RegisterFailedLogin(now);
        return Failed;
      }
      failedLoginCount := 0;
      lockedUntil := None;
      return Granted;
    }

    method RegisterFailedLogin(now: Time)
      modifies this`failedLoginCount, this`lockedUntil
      ensures State() == Registered(old(State()), now)
    {
      var next := failedLoginCount + 1;
      if next >= LOCKOUT_THRESHOLD {
        failedLoginCount := 0;
        lockedUntil := Some(now + LOCKOUT_MS);
      } else {
        failedLoginCount := next;
      }
    }
  }

  datatype Attempt = Attempt(passwordOk: bool, now: Time)

  function After(a: Account, attempts: seq<Attempt>): Account {
    if attempts == [] then a
    else
      var last := attempts[|attempts| - 1];
      Login(After(a, attempts[..|attempts| - 1]), last.passwordOk, last.now).0
  }

  /** When the failed password checks happened. */
  function FailedChecks(a: Account, attempts: seq<Attempt>): seq<Time> {
    if attempts == [] then []
    else
      var init, last := attempts[..|attempts| - 1], attempts[|attempts| - 1];
      var failed := FailedChecks(a, init);
      if Login(After(a, init), last.passwordOk, last.now).1 == Failed then failed + [last.now] else failed
  }

  predicate InOrder(attempts: seq<Attempt>) {
    forall i, j :: 0 <= i < j < |attempts| ==> attempts[i].now <= attempts[j].now
  }

  ghost predicate NoneGranted(a: Account, attempts: seq<Attempt>) {
    forall n :: 0 <= n < |attempts| ==> Login(After(a, attempts[..n]), attempts[n].passwordOk, attempts[n].now).1 != Granted
  }

  /** The bookkeeping of a run of failures that locked the account `locks` times: the first
      and the last of them are at least that many locks apart. */
  predicate Progress(a: Account, failed: seq<Time>, locks: nat) {
    && a.failedLoginCount < LOCKOUT_THRESHOLD
    && |failed| <= LOCKOUT_THRESHOLD * locks + a.failedLoginCount
    && (failed != [] && locks > 0 ==> a.lockedUntil.Some? && a.lockedUntil.value >= failed[0] + LOCKOUT_MS * locks)
    && (failed != [] ==>
          var last := failed[|failed| - 1];
          last >= failed[0] + LOCKOUT_MS * (if a.failedLoginCount > 0 || locks == 0 then locks else locks - 1))
  }

  lemma OneMoreAttempt(a: Account, failed: seq<Time>, locks: nat, now: Time)
    requires Progress(a, failed, locks) && !IsLocked(a, now)
    requires failed != [] ==> failed[|failed| - 1] <= now
    requires failed == [] ==> locks == 0
    ensures Progress(Registered(a, now), failed + [now], locks + (if a.failedLoginCount + 1 >= LOCKOUT_THRESHOLD then 1 else 0))
  {
    var after := Registered(a, now);
    assert failed != [] && locks > 0 ==> now >= failed[0] + LOCKOUT_MS * locks;
    assert failed != [] ==> now >= failed[0];
  }

  /** How often the account was locked by its failed checks. */
  function Locks(a: Account, attempts: seq<Attempt>): nat {
    if attempts == [] then 0
    else
      var init, last := attempts[..|attempts| - 1], attempts[|attempts| - 1];
      var before := After(a, init);
      Locks(a, init) +
      (if Login(before, last.passwordOk, last.now).1 == Failed && before.failedLoginCount + 1 >= LOCKOUT_THRESHOLD then 1 else 0)
  }

  lemma RunUnfolds(a: Account, init: seq<Attempt>, last: Attempt)
    ensures var before := After(a, init); var (after, outcome) := Login(before, last.passwordOk, last.now);
      && After(a, init + [last]) == after
      && FailedChecks(a, init + [last]) == (if outcome == Failed then FailedChecks(a, init) + [last.now] else FailedChecks(a, init))
      && Locks(a, init + [last]) == Locks(a, init) + (if outcome == Failed && before.failedLoginCount + 1 >= LOCKOUT_THRESHOLD then 1 else 0)
  {
    assert (init + [last])[..|init|] == init;
  }

  predicate Progressed(a: Account, failed: seq<Time>, locks: nat, now: Time) {
    && Progress(a, failed, locks)
    && (failed == [] ==> locks == 0)
    && (failed != [] ==> failed[|failed| - 1] <= now)
  }

  lemma StepProgresses(a: Account, init: seq<Attempt>, last: Attempt, now: Time)
    requires now <= last.now && Progressed(After(a, init), FailedChecks(a, init), Locks(a, init), now)
    requires Login(After(a, init), last.passwordOk, last.now).1 != Granted
    ensures Progressed(After(a, init + [last]), FailedChecks(a, init + [last]), Locks(a, init + [last]), last.now)
  {
    RunUnfolds(a, init, last);
    hide After, FailedChecks, Locks;
    if !IsLocked(After(a, init), last.now) {
      OneMoreAttempt(After(a, init), FailedChecks(a, init), Locks(a, init), last.now);
    }
    hide Progress;
  }

  lemma InitKeeps(a: Account, init: seq<Attempt>, last: Attempt)
    requires InOrder(init + [last]) && NoneGranted(a, init + [last])
    ensures InOrder(init) && NoneGranted(a, init)
    ensures Login(After(a, init), last.passwordOk, last.now).1 != Granted
    ensures init != [] ==> init[|init| - 1].now <= last.now
  {
    hide Login, After;
    var attempts := init + [last];
    assert attempts[..|init|] == init && attempts[|init|] == last;
    forall n | 0 <= n < |init| ensures Login(After(a, init[..n]), init[n].passwordOk, init[n].now).1 != Granted {
      assert attempts[..n] == init[..n] && attempts[n] == init[n];
    }
    assert init != [] ==> attempts[|init| - 1] == init[|init| - 1];
  }

  lemma NothingProgresses(a: Account, now: Time)
    requires a.failedLoginCount < LOCKOUT_THRESHOLD
    ensures Progressed(After(a, []), FailedChecks(a, []), Locks(a, []), now)
  {
  }

  lemma {:induction false} RunProgresses(a: Account, attempts: seq<Attempt>)
    requires a.failedLoginCount < LOCKOUT_THRESHOLD && attempts != [] && InOrder(attempts) && NoneGranted(a, attempts)
    ensures Progressed(After(a, attempts), FailedChecks(a, attempts), Locks(a, attempts), attempts[|attempts| - 1].now)
  {
    var init, last := attempts[..|attempts| - 1], attempts[|attempts| - 1];
    assert attempts == init + [last];
    InitKeeps(a, init, last);
    hide InOrder, NoneGranted, Login, Progress;
    if init == [] {
      NothingProgresses(a, last.now);
      StepProgresses(a, init, last, last.now);
    } else {
      RunProgresses(a, init);
      StepProgresses(a, init, last, init[|init| - 1].now);
    }
  }

  lemma ProgressBounds(a: Account, failed: seq<Time>, locks: nat)
    requires Progress(a, failed, locks) && failed != []
    ensures var T := failed[|failed| - 1] - failed[0]; T >= 0 && |failed| <= LOCKOUT_THRESHOLD * (T / LOCKOUT_MS + 1)
  {
    WholeWindows(failed[|failed| - 1] - failed[0], if a.failedLoginCount > 0 || locks == 0 then locks else locks - 1);
  }

  lemma WholeWindows(T: int, windows: nat)
    requires T >= LOCKOUT_MS * windows
    ensures T / LOCKOUT_MS >= windows
  {
  }

  lemma SomebodyTried(a: Account, attempts: seq<Attempt>)
    requires FailedChecks(a, attempts) != []
    ensures attempts != []
  {
  }

  /** With no success in between, the failed checks over a span of time `T` number at most
      five for every started quarter of an hour. */
  lemma FailedChecksAreBounded(a: Account, attempts: seq<Attempt>)
    requires a.failedLoginCount < 5 && InOrder(attempts) && NoneGranted(a, attempts)
    requires FailedChecks(a, attempts) != []
    ensures var failed := FailedChecks(a, attempts); var T := failed[|failed| - 1] - failed[0];
      T >= 0 && |failed| <= 5 * (T / 900_000 + 1)
  {
    hide After, FailedChecks, Locks, NoneGranted, Progress, InOrder, Login;
    SomebodyTried(a, attempts);
    RunProgresses(a, attempts);
    ProgressBounds(After(a, attempts), FailedChecks(a, attempts), Locks(a, attempts));
  }

  /** The fastest a guesser can go: five wrong passwords the moment each lock runs out. */
  function Siege(start: Time, locks: nat): seq<Attempt> {
    if locks == 0 then []
    else
      var now := start + LOCKOUT_MS * (locks - 1);
      Siege(start, locks - 1) + seq(LOCKOUT_THRESHOLD, _ => Attempt(false, now))
  }

  /** The bound is met: after `n` locks of such a siege, 5n checks have failed in 15(n - 1) minutes. */
  lemma {:induction false} TheBoundIsReached(start: Time, locks: nat)
    requires locks > 0
    ensures var unlocked := Account(0, None); var failed := FailedChecks(unlocked, Siege(start, locks));
      && After(unlocked, Siege(start, locks)) == Account(0, Some(start + 900_000 * locks))
      && |failed| == 5 * locks
      && failed[0] == start && failed[|failed| - 1] == start + 900_000 * (locks - 1)
  {
    var before := Siege(start, locks - 1);
    var now := start + LOCKOUT_MS * (locks - 1);
    if locks > 1 {
      TheBoundIsReached(start, locks - 1);
    }
    FiveFailures(Account(0, None), before, now);
  }

  /** One wrong password on an open account. */
  lemma OneFailure(a: Account, before: seq<Attempt>, now: Time)
    requires !IsLocked(After(a, before), now)
    ensures After(a, before + [Attempt(false, now)]) == Registered(After(a, before), now)
    ensures FailedChecks(a, before + [Attempt(false, now)]) == FailedChecks(a, before) + [now]
  {
    RunUnfolds(a, before, Attempt(false, now));
  }

  lemma {:induction false} SomeFailures(a: Account, before: seq<Attempt>, now: Time, n: nat)
    requires After(a, before).failedLoginCount == 0 && !IsLocked(After(a, before), now) && n < LOCKOUT_THRESHOLD
    ensures After(a, before + Wrong(n, now)) == After(a, before).(failedLoginCount := n)
    ensures FailedChecks(a, before + Wrong(n, now)) == FailedChecks(a, before) + seq(n, _ => now)
  {
    hide After, FailedChecks, Login;
    if n == 0 {
      assert before + Wrong(0, now) == before;
    } else {
      SomeFailures(a, before, now, n - 1);
      OneFailure(a, before + Wrong(n - 1, now), now);
      assert before + Wrong(n, now) == before + Wrong(n - 1, now) + [Attempt(false, now)];
      assert seq(n, _ => now) == seq(n - 1, _ => now) + [now];
    }
  }

  function Wrong(n: nat, now: Time): seq<Attempt> {
    seq(n, _ => Attempt(false, now))
  }

  lemma FiveFailures(a: Account, before: seq<Attempt>, now: Time)
    requires After(a, before).failedLoginCount == 0 && !IsLocked(After(a, before), now)
    ensures var attempts := before + seq(LOCKOUT_THRESHOLD, _ => Attempt(false, now));
      && After(a, attempts) == Account(0, Some(now + LOCKOUT_MS))
      && FailedChecks(a, attempts) == FailedChecks(a, before) + seq(LOCKOUT_THRESHOLD, _ => now)
  {
    hide After, FailedChecks, Login;
    SomeFailures(a, before, now, LOCKOUT_THRESHOLD - 1);
    var shorter := before + Wrong(LOCKOUT_THRESHOLD - 1, now);
    OneFailure(a, shorter, now);
    assert before + seq(LOCKOUT_THRESHOLD, _ => Attempt(false, now)) == shorter + [Attempt(false, now)];
    assert seq(LOCKOUT_THRESHOLD, _ => now) == seq(LOCKOUT_THRESHOLD - 1, _ => now) + [now];
  }
}
