/** Password reset tokens of one account (apps/api/src/auth/password-reset.service.ts). */
module PasswordReset {
  import opened Wrappers
  import opened Database
  import LoginLockout

  const RESET_COOLDOWN_MS: int := 5 * 60_000
  const RESET_TTL_MS: int := 30 * 60_000

  datatype Token = Token(createdAt: Time, expiresAt: Time, usedAt: Option<Time>)

  /** A token can still be spent. */
  predicate Live(t: Token, now: Time) {
    t.usedAt.None? && t.expiresAt > now
  }

  predicate CoolingDown(tokens: seq<Token>, now: Time) {
    exists i :: 0 <= i < |tokens| && tokens[i].createdAt > now - RESET_COOLDOWN_MS
  }

  function Issued(tokens: seq<Token>, now: Time): seq<Token> {
    if CoolingDown(tokens, now) then tokens else tokens + [Token(now, now + RESET_TTL_MS, None)]
  }

  function Spent(tokens: seq<Token>, i: nat, now: Time): seq<Token>
    requires i < |tokens|
  {
    tokens[i := tokens[i].(usedAt := Some(now))]
  }

  class Resets {
    const user: LoginLockout.LocalUser
    var tokens: seq<Token>

    constructor (user: LoginLockout.LocalUser)
      ensures this.user == user && tokens == []
    {
      this.user, tokens := user, [];
    }

    method Issue(now: Time) returns (sent: bool)
      modifies this`tokens
      ensures tokens == if user.CanLogIn() then Issued(old(tokens), now) else old(tokens)
      ensures sent <==> user.CanLogIn() && !CoolingDown(old(tokens), now)
    {
      if !user.active || !user.local || !user.hasPassword {
        return false;
      }
      for i := 0 to |tokens|
        invariant forall k :: 0 <= k < i ==> tokens[k].createdAt <= now - RESET_COOLDOWN_MS
      {
        if tokens[i].createdAt > now - RESET_COOLDOWN_MS {
          return false;
        }
      }
      tokens := tokens + [Token(now, now + RESET_TTL_MS, None)];
      return true;
    }

    /** Spend a token: once, before it expires, on an active local account, which then has a
        password and is unlocked. */
    method Consume(i: nat, passwordAllowed: bool, now: Time) returns (accepted: bool)
      modifies this`tokens, user
      ensures accepted <==> i < |old(tokens)| && old(Live(tokens[i], now)) && old(user.active && user.local) && passwordAllowed
      ensures tokens == if accepted then Spent(old(tokens), i, now) else old(tokens)
      ensures user.State() == if accepted then LoginLockout.Account(0, None) else old(user.State())
      ensures user.hasPassword == (accepted || old(user.hasPassword))
      ensures user.active == old(user.active) && user.local == old(user.local)
    {
      if i >= |tokens| || tokens[i].usedAt.Some? || tokens[i].expiresAt <= now || !user.active || !user.local {
        return false;
      }
      if !passwordAllowed {
        return false;
      }
      user.hasPassword := true;
      user.failedLoginCount := 0;
      user.lockedUntil := None;
      tokens := tokens[i := tokens[i].(usedAt := Some(now))];
      return true;
    }
  }

  // ── over runs ──

  datatype Call = Issue(now: Time) | Consume(token: nat, now: Time)

  function Step(tokens: seq<Token>, c: Call): seq<Token> {
    match c
    case Issue(now) => Issued(tokens, now)
    case Consume(i, now) => if i < |tokens| && Live(tokens[i], now) then Spent(tokens, i, now) else tokens
  }

  function Run(calls: seq<Call>): seq<Token> {
    if calls == [] then [] else Step(Run(calls[..|calls| - 1]), calls[|calls| - 1])
  }

  predicate InOrder(calls: seq<Call>) {
    forall i, j :: 0 <= i < j < |calls| ==> calls[i].now <= calls[j].now
  }

  /** The tokens were created at least a cooldown apart, and live one lifetime each. */
  predicate Spaced(tokens: seq<Token>, now: Time) {
    && (forall i :: 0 <= i < |tokens| ==> tokens[i].createdAt <= now && tokens[i].expiresAt == tokens[i].createdAt + RESET_TTL_MS)
    && (forall i, j :: 0 <= i < j < |tokens| ==> tokens[j].createdAt >= tokens[i].createdAt + RESET_COOLDOWN_MS * (j - i))
  }

  lemma IssueStaysSpaced(tokens: seq<Token>, before: Time, now: Time)
    requires Spaced(tokens, before) && before <= now
    ensures Spaced(Issued(tokens, now), now)
  {
    var after := Issued(tokens, now);
    if !CoolingDown(tokens, now) {
      forall i, j | 0 <= i < j < |after| ensures after[j].createdAt >= after[i].createdAt + RESET_COOLDOWN_MS * (j - i) {
        if j == |tokens| {
          assert tokens[j - 1].createdAt <= now - RESET_COOLDOWN_MS;
        }
      }
    }
  }

  lemma {:induction false} RunStaysSpaced(calls: seq<Call>)
    requires calls != [] && InOrder(calls)
    ensures Spaced(Run(calls), calls[|calls| - 1].now)
  {
    var init, last := calls[..|calls| - 1], calls[|calls| - 1];
    if init == [] {
      IssueStaysSpaced([], last.now, last.now);
    } else {
      RunStaysSpaced(init);
      IssueStaysSpaced(Run(init), init[|init| - 1].now, last.now);
    }
  }

  function LiveTokens(tokens: seq<Token>, now: Time): nat {
    if tokens == [] then 0
    else LiveTokens(tokens[..|tokens| - 1], now) + (if Live(tokens[|tokens| - 1], now) then 1 else 0)
  }

  lemma {:induction false} AtMostAll(tokens: seq<Token>, now: Time, dead: nat)
    requires dead <= |tokens| && forall i :: 0 <= i < dead ==> !Live(tokens[i], now)
    ensures LiveTokens(tokens, now) <= |tokens| - dead
  {
    if tokens != [] {
      AtMostAll(tokens[..|tokens| - 1], now, if dead == |tokens| then dead - 1 else dead);
    }
  }

  /** However often resets are asked for, an account never has more than six live tokens. */
  lemma NeverMoreThanSixLive(calls: seq<Call>, now: Time)
    requires InOrder(calls) && forall i :: 0 <= i < |calls| ==> calls[i].now <= now
    ensures LiveTokens(Run(calls), now) <= 6
  {
    var tokens := Run(calls);
    if calls != [] {
      RunStaysSpaced(calls);
      var dead := if |tokens| <= 6 then 0 else |tokens| - 6;
      OlderThanSixAreDead(tokens, calls[|calls| - 1].now, now, dead);
      AtMostAll(tokens, now, dead);
    }
  }

  lemma OlderThanSixAreDead(tokens: seq<Token>, last: Time, now: Time, dead: nat)
    requires Spaced(tokens, last) && last <= now && dead + 6 <= |tokens| + (if dead == 0 then 6 else 0)
    ensures forall i :: 0 <= i < dead ==> !Live(tokens[i], now)
  {
    forall i | 0 <= i < dead ensures !Live(tokens[i], now) {
      assert tokens[|tokens| - 1].createdAt >= tokens[i].createdAt + RESET_COOLDOWN_MS * (|tokens| - 1 - i);
    }
  }

  /** A spent token stays spent: no later call makes it live again. */
  lemma SpentStaysSpent(tokens: seq<Token>, c: Call, i: nat)
    requires i < |tokens| && tokens[i].usedAt.Some?
    ensures i < |Step(tokens, c)| && Step(tokens, c)[i] == tokens[i]
  {
  }

  /** Six can be live at once: one request every five minutes. */
  function Steady(start: Time, n: nat): seq<Call> {
    seq(n, i requires 0 <= i < n => Issue(start + RESET_COOLDOWN_MS * i))
  }

  function SteadyTokens(start: Time, n: nat): seq<Token> {
    seq(n, i requires 0 <= i < n =>
      Token(start + RESET_COOLDOWN_MS * i, start + RESET_COOLDOWN_MS * i + RESET_TTL_MS, None))
  }

  lemma OneMoreIsIssued(start: Time, n: nat)
    ensures Issued(SteadyTokens(start, n), start + RESET_COOLDOWN_MS * n) == SteadyTokens(start, n + 1)
  {
    assert !CoolingDown(SteadyTokens(start, n), start + RESET_COOLDOWN_MS * n);
  }

  lemma {:induction false} SteadyIssuesAll(start: Time, n: nat)
    ensures Run(Steady(start, n)) == SteadyTokens(start, n)
  {
    hide SteadyTokens, Issued;
    if n == 0 {
      NoSteadyTokens(start);
    } else {
      SteadyIssuesAll(start, n - 1);
      OneMoreIsIssued(start, n - 1);
      assert Steady(start, n)[..n - 1] == Steady(start, n - 1);
    }
  }

  lemma NoSteadyTokens(start: Time)
    ensures SteadyTokens(start, 0) == []
  {
  }

  lemma SixAreReached(start: Time)
    ensures InOrder(Steady(start, 6)) && LiveTokens(Run(Steady(start, 6)), start + RESET_COOLDOWN_MS * 5) == 6
  {
    SteadyIssuesAll(start, 6);
    AllLive(Run(Steady(start, 6)), start + RESET_COOLDOWN_MS * 5);
  }

  lemma {:induction false} AllLive(tokens: seq<Token>, now: Time)
    requires forall i :: 0 <= i < |tokens| ==> Live(tokens[i], now)
    ensures LiveTokens(tokens, now) == |tokens|
  {
    if tokens != [] {
      AllLive(tokens[..|tokens| - 1], now);
    }
  }
}
