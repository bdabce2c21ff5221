/** The limits in figures: what is let through, for how long, and how many at a time. */
module LimiterLaws {
  import opened Wrappers
  import opened Database
  import Lock = LoginLockout
  import Reset = PasswordReset
  import Sync = SyncCheck
  import Tools = ToolBudget
  import Window = HistoryWindow

  // ── logins ──

  /** A locked account answers without looking; a good password clears the account; a bad one counts,
      and the fifth locks for nine hundred seconds and starts counting anew. */
  lemma LoginDoes(a: Lock.Account, passwordOk: bool, now: Time)
    ensures var (after, outcome) := Lock.Login(a, passwordOk, now);
      if a.lockedUntil != None && now < a.lockedUntil.value then outcome == Lock.Locked && after == a
      else if passwordOk then outcome == Lock.Granted && after.failedLoginCount == 0 && after.lockedUntil == None
      else if a.failedLoginCount < 4 then
        outcome == Lock.Failed && after.failedLoginCount == a.failedLoginCount + 1 && after.lockedUntil == a.lockedUntil
      else outcome == Lock.Failed && after.failedLoginCount == 0 && after.lockedUntil == Some(now + 900_000)
  {
  }

  /** Out of the blue, `n` bad passwords lock an account exactly from the fifth on. */
  lemma TheFifthLocks(n: nat, now: Time, later: Time)
    requires n <= 5 && now <= later
    ensures Lock.IsLocked(Lock.After(Lock.Account(0, None), Lock.Wrong(n, now)), later) <==> n == 5 && later - now < 900_000
  {
    hide Lock.After, Lock.FailedChecks, Lock.Login;
    assert [] + Lock.Wrong(n, now) == Lock.Wrong(n, now);
    assert Lock.After(Lock.Account(0, None), []) == Lock.Account(0, None) by {
      NothingTried();
    }
    if n < 5 {
      Lock.SomeFailures(Lock.Account(0, None), [], now, n);
    } else {
      Lock.FiveFailures(Lock.Account(0, None), [], now);
    }
  }

  lemma NothingTried()
    ensures Lock.After(Lock.Account(0, None), []) == Lock.Account(0, None)
  {
  }

  // ── password resets ──

  /** A token is issued if and only if none is younger than three hundred seconds. */
  lemma IssuesExactlyWhen(tokens: seq<Reset.Token>, now: Time)
    ensures if exists i :: 0 <= i < |tokens| && now - tokens[i].createdAt < 300_000 then Reset.Issued(tokens, now) == tokens
      else Reset.Issued(tokens, now) == tokens + [Reset.Token(now, now + 1_800_000, None)]
  {
    assert Reset.CoolingDown(tokens, now) <==> exists i :: 0 <= i < |tokens| && now - tokens[i].createdAt < 300_000;
  }

  /** A token just issued can be spent for half an hour, once. */
  lemma LivesHalfAnHour(tokens: seq<Reset.Token>, now: Time, later: Time)
    requires Reset.Issued(tokens, now) != tokens
    ensures var issued := Reset.Issued(tokens, now); var i := |tokens|;
      && i < |issued| && (Reset.Live(issued[i], later) <==> later - now < 1_800_000)
      && !Reset.Live(Reset.Spent(issued, i, later)[i], later)
  {
    IssuesExactlyWhen(tokens, now);
  }

  // ── the on-demand check ──

  /** A check is due if there was none in the last thirty seconds; otherwise the seconds named are
      the fewest whole ones after which it is. */
  lemma RemainingMeans(stamps: Sync.Stamps, r: RequestId, now: Time)
    ensures var seconds := Sync.Remaining(stamps, r, now);
      if r !in stamps || now - stamps[r] >= 30_000 then seconds == 0
      else
        && seconds > 0
        && now + 1000 * seconds - stamps[r] >= 30_000
        && now + 1000 * (seconds - 1) - stamps[r] < 30_000
  {
  }

  /** Apart is thirty seconds apart. */
  lemma ApartMeans(calls: seq<Sync.Ask>)
    ensures Sync.Apart(calls) <==> forall i, j :: 0 <= i < j < |calls| && calls[i].requestId == calls[j].requestId ==>
      calls[j].now - calls[i].now >= 30_000
  {
  }

  /** The stamps kept are those of the requests that still have to wait. */
  lemma PrunedMeans(stamps: Sync.Stamps, now: Time)
    ensures var kept := Sync.Pruned(stamps, now);
      && (forall r :: r in kept <==> r in stamps && now - stamps[r] < 30_000)
      && (forall r :: r in kept ==> kept[r] == stamps[r])
  {
  }

  /** A request that is gone, foreign or synced never gets to the cooldown. */
  lemma StoppedMeans(db: Db, r: nat, actor: Actor)
    ensures Sync.Stopped(db, r, actor) ==
      if r >= |db.requests| then Some(Sync.Failed(NotFound))
      else if Truthy(actor.opcoScope) && actor.opcoScope != Some(db.requests[r].opcoId) then Some(Sync.Failed(Forbidden))
      else if db.requests[r].azureSyncedAt != None then Some(Sync.Found)
      else None
    ensures Sync.AnswerTo(Sync.NotThere) == Sync.NotFoundYet(30)
    ensures Sync.AnswerTo(Sync.There) == Sync.Found && Sync.AnswerTo(Sync.LookupThrows) == Sync.Failed(Unavailable)
  {
  }

  // ── tool calls ──

  /** The calls a run made by itself that went through. */
  function Spent(steps: seq<Tools.ToolStep>, runId: Tools.RunId, tools: seq<Tools.Tool>): set<nat> {
    set i | 0 <= i < |steps| && steps[i].runId == runId && steps[i].ok && Unasked(steps[i].key, tools)
  }

  /** A tool of this name needs nobody's approval. */
  predicate Unasked(name: string, tools: seq<Tools.Tool>) {
    exists i :: 0 <= i < |tools| && tools[i].name == name && !tools[i].needsApproval
  }

  lemma UnaskedMeans(name: string, tools: seq<Tools.Tool>)
    ensures name in Tools.AutonomousNames(tools) <==> Unasked(name, tools)
  {
    if name in Tools.AutonomousNames(tools) {
      var tool :| tool in tools && !tool.needsApproval && tool.name == name;
      var i :| 0 <= i < |tools| && tools[i] == tool;
    }
  }

  lemma {:induction false} UsedMeans(steps: seq<Tools.ToolStep>, runId: Tools.RunId, tools: seq<Tools.Tool>)
    ensures Tools.Used(steps, runId, Tools.AutonomousNames(tools)) == |Spent(steps, runId, tools)|
  {
    hide Tools.AutonomousNames, Unasked;
    if steps != [] {
      var last := |steps| - 1;
      UsedMeans(steps[..last], runId, tools);
      UnaskedMeans(steps[last].key, tools);
      OneMoreStep(steps, runId, tools);
      hide Spent;
    }
  }

  lemma OneMoreStep(steps: seq<Tools.ToolStep>, runId: Tools.RunId, tools: seq<Tools.Tool>)
    requires steps != []
    ensures var last := |steps| - 1; var before := Spent(steps[..last], runId, tools);
      && last !in before
      && Spent(steps, runId, tools) ==
           before + (if steps[last].runId == runId && steps[last].ok && Unasked(steps[last].key, tools) then {last} else {})
  {
    hide Unasked;
  }

  /** What the counter shows: the calls spent, the ceiling, and whether it is reached. */
  lemma BlastRadiusShows(steps: seq<Tools.ToolStep>, runId: Tools.RunId, tools: seq<Tools.Tool>)
    ensures var shown := Tools.BlastRadiusOf(steps, runId, Tools.AutonomousNames(tools));
      && shown.used == |Spent(steps, runId, tools)|
      && shown.limit == 25
      && (shown.exceeded <==> |Spent(steps, runId, tools)| >= 25)
  {
    UsedMeans(steps, runId, tools);
    hide Tools.Used, Spent, Tools.AutonomousNames;
  }

  /** A tool is run if and only if a person approves it, or its run has made fewer than twenty-five
      successful calls by itself. */
  lemma LetsThroughExactlyWhen(s: Tools.Ledger, call: Tools.Call)
    ensures Tools.LetThrough(s, call) <==>
      call.tool in s.tools && (call.tool.needsApproval || |Spent(s.steps, call.runId, s.tools)| < 25)
  {
    UsedMeans(s.steps, call.runId, s.tools);
    hide Tools.Used, Spent, Tools.AutonomousNames;
  }

  // ── the conversation window ──

  /** At most twenty turns and twenty thousand characters, or the newest turn whatever its length. */
  lemma FitsMeans(turns: seq<Window.ChatTurn>, n: nat)
    ensures Window.Fits(turns, n) <==> n <= |turns| && n <= 20 && (n <= 1 || Window.Chars(turns[|turns| - n..]) <= 20_000)
  {
  }

  lemma {:induction false} CharsMean(turns: seq<Window.ChatTurn>, turn: Window.ChatTurn)
    ensures Window.Chars([]) == 0 && Window.Chars(turns + [turn]) == Window.Chars(turns) + |turn.content|
  {
    if turns == [] {
      assert [turn][1..] == [] && turns + [turn] == [turn];
    } else {
      assert (turns + [turn])[1..] == turns[1..] + [turn];
      CharsMean(turns[1..], turn);
    }
  }

  /** There is a question when one of the last twenty-one turns is a person's. */
  lemma QuestionMeans(turns: seq<Window.ChatTurn>)
    ensures Window.HasQuestion(turns) <==> exists i :: 0 <= i < |turns| && |turns| - 21 <= i && turns[i].role == Window.User
  {
    var newest := Window.Newest(turns);
    if i :| 0 <= i < |turns| && |turns| - 21 <= i && turns[i].role == Window.User {
      assert newest[|turns| - 1 - i] == turns[i];
    }
    if i :| 0 <= i < |newest| && newest[i].role == Window.User {
      assert turns[|turns| - 1 - i] == newest[i];
    }
  }
}
