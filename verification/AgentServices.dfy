/**
  The services that write the agent tables (apps/api/src/agent/ai-assist.service.ts,
  kill-switch.service.ts, run-expiry.service.ts), each against its specification in AgentRuns.
 */
module AgentServices {
  import opened Wrappers
  import opened Database
  import opened AgentRuns

  class AgentTables {
    var principal: Option<bool>
    var runs: seq<AgentRun>
    var proposals: seq<Proposal>

    constructor ()
      ensures State() == Agent(None, [], [])
    {
      principal, runs, proposals := None, [], [];
    }

    function State(): Agent
      reads this
    {
      Agent(principal, runs, proposals)
    }
  }

  class KillSwitch {
    const rows: AgentTables

    constructor (rows: AgentTables)
      ensures this.rows == rows
    {
      this.rows := rows;
    }

    method AssertEnabled() returns (error: Option<Error>)
      ensures error.None? <==> rows.State().Enabled()
      ensures error.Some? ==> error == Some(Conflict)
    {
      if rows.principal == Some(false) {
        return Some(Conflict);
      }
      return None;
    }

    method Set(enabled: bool)
      modifies rows
      ensures rows.State() == SetSwitch(old(rows.State()), enabled)
    {
      rows.principal := Some(enabled);
    }

    /** Both halves: whether it is on, and what is still in the air. */
    method Status() returns (enabled: bool, liveRuns: nat, pendingProposals: nat, settled: bool)
      ensures enabled == rows.State().Enabled()
      ensures liveRuns == LiveRuns(rows.runs) && pendingProposals == PendingProposals(rows.proposals)
      ensures settled <==> Settled(rows.State())
    {
      enabled := rows.principal != Some(false);
      liveRuns := 0;
      for r := 0 to |rows.runs|
        invariant liveRuns == LiveRuns(rows.runs[..r])
      {
        assert rows.runs[..r + 1][..r] == rows.runs[..r];
        if rows.runs[r].status in NON_TERMINAL_RUN_STATUSES {
          liveRuns := liveRuns + 1;
        }
      }
      assert rows.runs[..|rows.runs|] == rows.runs;
      pendingProposals := 0;
      for p := 0 to |rows.proposals|
        invariant pendingProposals == PendingProposals(rows.proposals[..p])
      {
        assert rows.proposals[..p + 1][..p] == rows.proposals[..p];
        if rows.proposals[p].status == Pending {
          pendingProposals := pendingProposals + 1;
        }
      }
      assert rows.proposals[..|rows.proposals|] == rows.proposals;
      settled := !enabled && liveRuns == 0 && pendingProposals == 0;
    }
  }

  /** One more pause is recorded, or the first unrecognised tool has been reached. */
  lemma {:induction false} RecordedGrows(r: RunId, pendings: seq<PendingCall>, now: Time, i: nat)
    requires i < |pendings| && |Recorded(r, pendings[..i], now)| == i
    ensures var kind := KindOf(pendings[i].toolName);
      && (kind.Some? ==> Recorded(r, pendings[..i + 1], now) == Recorded(r, pendings[..i], now) + [NewProposal(r, pendings[i], kind.value, now)])
      && (kind.None? ==> Recorded(r, pendings, now) == Recorded(r, pendings[..i], now))
  {
    if i > 0 {
      assert pendings[..i][0] == pendings[0] && pendings[..i][1..] == pendings[1..][..i - 1];
      assert pendings[..i + 1][1..] == pendings[1..][..i];
      RecordedGrows(r, pendings[1..], now, i - 1);
    }
  }

  class AiAssist {
    const db: Tables
    const rows: AgentTables
    const killSwitch: KillSwitch

    constructor (db: Tables, rows: AgentTables, killSwitch: KillSwitch)
      requires killSwitch.rows == rows
      ensures this.db == db && this.rows == rows && this.killSwitch == killSwitch
    {
      this.db, this.rows, this.killSwitch := db, rows, killSwitch;
    }

    predicate Wired() {
      killSwitch.rows == rows
    }

    method StartRun(user: Actor, requestId: nat, profileUsable: bool, enqueued: bool, now: Time) returns (result: Result<RunId>)
      requires Wired()
      modifies rows
      ensures (rows.State(), result) == AgentRuns.StartRun(db.State(), old(rows.State()), user, requestId, profileUsable, enqueued, now)
    {
      var off := killSwitch.AssertEnabled();
      if off.Some? {
        return Err(off.value);
      }
      if requestId >= |db.requests| {
        return Err(NotFound);
      }
      if !InScope(user, db.requests[requestId].opcoId) {
        return Err(Forbidden);
      }
      if !Readable(db.requests[requestId].rawRequestText) {
        return Err(BadRequest);
      }
      var open := FindOpenRun(requestId);
      if open {
        return Err(Conflict);
      }
      result := StoreRun(user, Some(requestId), None, profileUsable, enqueued, now);
    }

    method FindOpenRun(requestId: RequestId) returns (open: bool)
      ensures open == HasOpenRun(rows.State(), requestId)
    {
      for r := 0 to |rows.runs|
        invariant forall k :: 0 <= k < r ==> !(rows.runs[k].requestId == Some(requestId) && !Terminal(rows.runs[k].status))
      {
        if rows.runs[r].requestId == Some(requestId) && rows.runs[r].status in NON_TERMINAL_RUN_STATUSES {
          return true;
        }
      }
      return false;
    }

    method StartConversationRun(user: Actor, conversationId: string, requestId: Option<RequestId>, profileUsable: bool, enqueued: bool, now: Time)
      returns (result: Result<RunId>)
      requires Wired()
      modifies rows
      ensures (rows.State(), result) ==
        AgentRuns.StartConversationRun(old(rows.State()), user, conversationId, requestId, profileUsable, enqueued, now)
    {
      var off := killSwitch.AssertEnabled();
      if off.Some? {
        return Err(off.value);
      }
      result := StoreRun(user, requestId, Some(conversationId), profileUsable, enqueued, now);
    }

    /** A run that could not be queued must not be left looking as if it ran. */
    method StoreRun(user: Actor, requestId: Option<RequestId>, conversationId: Option<string>, profileUsable: bool, enqueued: bool, now: Time)
      returns (result: Result<RunId>)
      modifies rows
      ensures (rows.State(), result) == QueueRun(old(rows.State()), user, requestId, conversationId, profileUsable, enqueued, now)
    {
      if rows.principal == None {
        rows.principal := Some(true);
      }
      if rows.principal == Some(false) {
        return Err(Conflict);
      }
      if !profileUsable {
        return Err(BadRequest);
      }
      var id := |rows.runs|;
      rows.runs := rows.runs + [AgentRun(user, requestId, conversationId, Running, None, now, None, None)];
      if !enqueued {
        Fail(id, now);
        return Err(Internal);
      }
      return Ok(id);
    }

    method Execute(r: nat, turn: Turn, now: Time) returns (result: Result<RunStatus>)
      requires Wired()
      modifies rows
      ensures (rows.State(), result) == AgentRuns.ExecuteRun(old(rows.State()), r, turn, now)
    {
      if r >= |rows.runs| {
        return Err(NotFound);
      }
      if rows.runs[r].status != Running {
        return Err(Conflict);
      }
      var off := killSwitch.AssertEnabled();
      if off.Some? {
        Fail(r, now);
        return Err(off.value);
      }
      result := TakeTurn(r, turn, now);
    }

    method Resume(r: nat, turn: Turn, now: Time) returns (result: Result<RunStatus>)
      requires Wired()
      modifies rows
      ensures (rows.State(), result) == ResumeRun(old(rows.State()), r, turn, now)
    {
      var off := killSwitch.AssertEnabled();
      if off.Some? {
        return Err(off.value);
      }
      if r >= |rows.runs| {
        return Err(NotFound);
      }
      if rows.runs[r].status != AwaitingApproval {
        return Err(Conflict);
      }
      if !Readable(rows.runs[r].runState) {
        Expire(r, now);
        return Err(Unavailable);
      }
      result := TakeTurn(r, turn, now);
    }

    /** A turn that throws, in the runtime or while it is being written down, fails the run. */
    method TakeTurn(r: RunId, turn: Turn, now: Time) returns (result: Result<RunStatus>)
      requires r < |rows.runs|
      modifies rows
      ensures (rows.State(), result) == RunTurn(old(rows.State()), r, turn, now)
    {
      if turn.TurnThrows? {
        Fail(r, now);
        return Err(Internal);
      }
      result := PersistTurn(r, turn, now);
      if result.Err? {
        Fail(r, now);
      }
    }

    method PersistTurn(r: RunId, turn: Turn, now: Time) returns (result: Result<RunStatus>)
      requires r < |rows.runs| && !turn.TurnThrows?
      modifies rows
      ensures |rows.runs| == old(|rows.runs|)
      ensures result.Ok? ==> (rows.State(), result) == RunTurn(old(rows.State()), r, turn, now)
      ensures result.Err? ==> (FailRun(rows.State(), r, now), result) == RunTurn(old(rows.State()), r, turn, now)
    {
      if turn.TurnCompleted? {
        rows.runs := rows.runs[r := rows.runs[r].(status := RunCompleted, endedAt := Some(now), runState := None)];
        return Ok(RunCompleted);
      }
      var pendings := turn.pendingApprovals;
      for i := 0 to |pendings|
        invariant rows.runs == old(rows.runs) && rows.principal == old(rows.principal)
        invariant |Recorded(r, pendings[..i], now)| == i
        invariant rows.proposals == old(rows.proposals) + Recorded(r, pendings[..i], now)
      {
        RecordedGrows(r, pendings, now, i);
        var kind := KindOf(pendings[i].toolName);
        if kind.None? {
          return Err(BadRequest);
        }
        rows.proposals := rows.proposals + [NewProposal(r, pendings[i], kind.value, now)];
      }
      assert pendings[..|pendings|] == pendings;
      rows.runs := rows.runs[r := rows.runs[r].(status := AwaitingApproval, runState := Some(turn.state))];
      return Ok(AwaitingApproval);
    }

    method Fail(r: RunId, now: Time)
      requires r < |rows.runs|
      modifies rows
      ensures rows.State() == FailRun(old(rows.State()), r, now)
    {
      rows.runs := rows.runs[r := rows.runs[r].(status := RunFailed, endedAt := Some(now))];
    }

    method Expire(r: RunId, now: Time)
      requires r < |rows.runs|
      modifies rows
      ensures rows.State() == ExpireRun(old(rows.State()), r, now)
    {
      rows.runs := rows.runs[r := rows.runs[r].(status := Expired, endedAt := Some(now))];
      RejectPendingOf(r);
    }

    method RejectPendingOf(r: RunId)
      modifies rows
      ensures rows.State() == old(rows.State()).(proposals := DropPending(old(rows.proposals), r))
    {
      var before := rows.proposals;
      var kept: seq<Proposal> := [];
      for p := 0 to |before|
        invariant kept == DropPending(before, r)[..p]
      {
        var proposal := before[p];
        if proposal.runId == r && proposal.status == Pending {
          proposal := proposal.(status := Rejected);
        }
        kept := kept + [proposal];
      }
      rows.proposals := kept;
    }

    method FindVisible(user: Actor, r: nat) returns (error: Option<Error>)
      ensures error == ViewRefusal(db.State(), rows.State(), user, r)
    {
      if r >= |rows.runs| {
        return Some(NotFound);
      }
      var requestId := rows.runs[r].requestId;
      if requestId.Some? && requestId.value < |db.requests| && !InScope(user, db.requests[requestId.value].opcoId) {
        return Some(Forbidden);
      }
      return None;
    }

    method Abort(user: Actor, r: nat, now: Time) returns (error: Option<Error>)
      modifies rows
      ensures (rows.State(), error) == AgentRuns.AbortRun(db.State(), old(rows.State()), user, r, now)
    {
      error := FindVisible(user, r);
      if error.Some? {
        return;
      }
      if rows.runs[r].status !in NON_TERMINAL_RUN_STATUSES {
        return Some(Conflict);
      }
      rows.runs := rows.runs[r := rows.runs[r].(status := Aborted, endedAt := Some(now))];
      RejectPendingOf(r);
    }

    method Hide(user: Actor, r: nat, now: Time) returns (error: Option<Error>)
      modifies rows
      ensures (rows.State(), error) == AgentRuns.HideRun(db.State(), old(rows.State()), user, r, now)
    {
      error := FindVisible(user, r);
      if error.Some? {
        return;
      }
      if rows.runs[r].status in NON_TERMINAL_RUN_STATUSES {
        return Some(Conflict);
      }
      rows.runs := rows.runs[r := rows.runs[r].(hiddenAt := Some(now))];
    }

    method Unhide(user: Actor, r: nat) returns (error: Option<Error>)
      modifies rows
      ensures (rows.State(), error) == AgentRuns.UnhideRun(db.State(), old(rows.State()), user, r)
    {
      error := FindVisible(user, r);
      if error.Some? {
        return;
      }
      rows.runs := rows.runs[r := rows.runs[r].(hiddenAt := None)];
    }
  }

  class RunExpiry {
    const aiAssist: AiAssist

    constructor (aiAssist: AiAssist)
      ensures this.aiAssist == aiAssist
    {
      this.aiAssist := aiAssist;
    }

    /** One round over the runs the query found. */
    method Sweep(found: seq<RunId>, now: Time) returns (expired: nat)
      requires StaleBatch(aiAssist.rows.runs, now, found)
      modifies aiAssist.rows
      ensures aiAssist.rows.State() == ExpireAll(old(aiAssist.rows.State()), found, now)
      ensures expired == |found|
    {
      expired := 0;
      for i := 0 to |found|
        invariant |aiAssist.rows.runs| == |old(aiAssist.rows.runs)|
        invariant aiAssist.rows.State() == ExpireAll(old(aiAssist.rows.State()), found[..i], now)
        invariant expired == i
      {
        assert found[..i + 1][..i] == found[..i];
        aiAssist.Expire(found[i], now);
        expired := expired + 1;
      }
      assert found[..|found|] == found;
    }
  }
}
