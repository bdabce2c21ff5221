/** The run lifecycle said on the rows: who may do what, and what each call writes. */
module RunLaws {
  import opened Wrappers
  import opened Database
  import opened AgentRuns
  import opened Terms

  // ── words ──

  predicate Open(run: AgentRun) {
    run.status == Running || run.status == AwaitingApproval || run.status == Approved
  }

  predicate SwitchedOff(a: Agent) {
    a.principal == Some(false)
  }

  /** A saved state is one a run can be resumed from. */
  predicate Legible(text: Option<string>) {
    text != None && Wordy(text.value)
  }

  lemma LegibleMeans(text: Option<string>)
    ensures Readable(text) <==> Legible(text)
  {
    if text.Some? {
      BlankMeans(text.value);
      hide Wordy;
    }
  }

  // ── one turn ──

  /** The two tools a pause may be about. */
  predicate Known(call: PendingCall) {
    call.toolName == "propose_line_items" || call.toolName == "propose_assign"
  }

  /** The proposal a pause is recorded as. */
  function RowOf(r: RunId, call: PendingCall, now: Time): Proposal {
    Proposal(r, if call.toolName == "propose_assign" then AssignOne else LineItems, call.ref, call.args, Pending, None, now, None, [])
  }

  /** `n` is the first pause about a tool nobody knows, or the number of them. */
  predicate KnownUpTo(pendings: seq<PendingCall>, n: nat) {
    && n <= |pendings|
    && (forall i :: 0 <= i < n ==> Known(pendings[i]))
    && (n < |pendings| ==> !Known(pendings[n]))
  }

  lemma {:induction false} RecordsTheKnown(r: RunId, pendings: seq<PendingCall>, now: Time, n: nat)
    requires KnownUpTo(pendings, n)
    ensures Recorded(r, pendings, now) == seq(n, i requires 0 <= i < n => RowOf(r, pendings[i], now))
  {
    ToolNames();
    if n > 0 {
      assert Known(pendings[0]);
      assert forall i :: 0 <= i < n - 1 ==> pendings[1..][i] == pendings[i + 1];
      RecordsTheKnown(r, pendings[1..], now, n - 1);
    }
  }

  lemma ToolNames()
    ensures "propose_line_items" != "propose_assign"
  {
    assert "propose_line_items"[8] == 'l' && "propose_assign"[8] == 'a';
  }

  /** A turn that throws fails the run; one that finishes completes it, and forgets its state; a pause
      is recorded, proposal by proposal, up to the first tool nobody knows: there the run fails, and
      otherwise it waits with the state it can be resumed from. */
  lemma TurnDoes(a: Agent, r: RunId, turn: Turn, now: Time, n: nat)
    requires r < |a.runs| && (turn.TurnPaused? ==> KnownUpTo(turn.pendingApprovals, n))
    ensures turn.TurnThrows? ==>
      RunTurn(a, r, turn, now) == (a.(runs := a.runs[r := a.runs[r].(status := RunFailed, endedAt := Some(now))]), Err(Internal))
    ensures turn.TurnCompleted? ==>
      RunTurn(a, r, turn, now) == (a.(runs := a.runs[r := a.runs[r].(status := RunCompleted, endedAt := Some(now), runState := None)]), Ok(RunCompleted))
    ensures turn.TurnPaused? ==>
      var noted := a.(proposals := a.proposals + seq(n, i requires 0 <= i < n => RowOf(r, turn.pendingApprovals[i], now)));
      RunTurn(a, r, turn, now) ==
        if n == |turn.pendingApprovals| then
          (noted.(runs := a.runs[r := a.runs[r].(status := AwaitingApproval, runState := Some(turn.state))]), Ok(AwaitingApproval))
        else (noted.(runs := a.runs[r := a.runs[r].(status := RunFailed, endedAt := Some(now))]), Err(BadRequest))
  {
    if turn.TurnPaused? {
      RecordsTheKnown(r, turn.pendingApprovals, now, n);
    }
    hide Recorded, KnownUpTo, RowOf;
  }

  /** There is always such a number, and one only. */
  lemma {:induction false} SomeAreKnown(pendings: seq<PendingCall>) returns (n: nat)
    ensures KnownUpTo(pendings, n)
    ensures forall m :: KnownUpTo(pendings, m) ==> m == n
  {
    n := 0;
    while n < |pendings| && Known(pendings[n])
      invariant n <= |pendings| && forall i :: 0 <= i < n ==> Known(pendings[i])
    {
      n := n + 1;
    }
  }

  // ── starting, executing, resuming ──

  /** A run is executed if and only if it is there and running. Switched off, the agent fails it. */
  lemma ExecutesExactlyWhen(a: Agent, r: nat, turn: Turn, now: Time)
    ensures ExecuteRun(a, r, turn, now) ==
      if r >= |a.runs| then (a, Err(NotFound))
      else if a.runs[r].status != Running then (a, Err(Conflict))
      else if SwitchedOff(a) then (a.(runs := a.runs[r := a.runs[r].(status := RunFailed, endedAt := Some(now))]), Err(Conflict))
      else RunTurn(a, r, turn, now)
  {
    hide RunTurn;
  }

  /** A run is resumed if and only if the agent is on, the run waits and its state can be read; one
      that waits with a state nobody can read is expired, with the proposals it had pending. */
  lemma ResumesExactlyWhen(a: Agent, r: nat, turn: Turn, now: Time)
    ensures ResumeRun(a, r, turn, now) ==
      if SwitchedOff(a) then (a, Err(Conflict))
      else if r >= |a.runs| then (a, Err(NotFound))
      else if a.runs[r].status != AwaitingApproval then (a, Err(Conflict))
      else if Legible(a.runs[r].runState) then RunTurn(a, r, turn, now)
      else (ExpireRun(a, r, now), Err(Unavailable))
  {
    if r < |a.runs| {
      LegibleMeans(a.runs[r].runState);
    }
    hide RunTurn, ExpireRun, Readable, Legible;
  }

  /** The first use settles that there is a principal, switched on. */
  function FirstUse(a: Agent): Agent {
    a.(principal := if a.principal == None then Some(true) else a.principal)
  }

  /** The row of a run that has just been asked for. */
  function Fresh(user: Actor, requestId: Option<RequestId>, conversationId: Option<string>, now: Time): AgentRun {
    AgentRun(user, requestId, conversationId, Running, None, now, None, None)
  }

  /** Past its guards a start needs a usable profile; the run is stored running, and failed at once
      when it cannot be queued. */
  lemma QueueDoes(a: Agent, user: Actor, requestId: Option<RequestId>, conversationId: Option<string>, usable: bool, enqueued: bool, now: Time)
    ensures var run := Fresh(user, requestId, conversationId, now);
      QueueRun(a, user, requestId, conversationId, usable, enqueued, now) ==
        if SwitchedOff(a) then (a, Err(Conflict))
        else if !usable then (FirstUse(a), Err(BadRequest))
        else if enqueued then (FirstUse(a).(runs := a.runs + [run]), Ok(|a.runs|))
        else (FirstUse(a).(runs := a.runs + [run.(status := RunFailed, endedAt := Some(now))]), Err(Internal))
  {
    var run := Fresh(user, requestId, conversationId, now);
    assert (a.runs + [run])[|a.runs| := run.(status := RunFailed, endedAt := Some(now))] == a.runs + [run.(status := RunFailed, endedAt := Some(now))];
  }

  /** The request has a run open already. */
  predicate Busy(a: Agent, requestId: RequestId) {
    exists r :: 0 <= r < |a.runs| && a.runs[r].requestId == Some(requestId) && Open(a.runs[r])
  }

  /** From a request screen a run is started if and only if the agent is on, the request is there, the
      user may touch it, it says something, and no run of it is open. */
  lemma StartsExactlyWhen(db: Db, a: Agent, user: Actor, requestId: nat, usable: bool, enqueued: bool, now: Time)
    ensures AgentRuns.StartRun(db, a, user, requestId, usable, enqueued, now) ==
      if SwitchedOff(a) then (a, Err(Conflict))
      else if requestId >= |db.requests| then (a, Err(NotFound))
      else if !MayTouch(user, db.requests[requestId].opcoId) then (a, Err(Forbidden))
      else if !Legible(db.requests[requestId].rawRequestText) then (a, Err(BadRequest))
      else if Busy(a, requestId) then (a, Err(Conflict))
      else QueueRun(a, user, Some(requestId), None, usable, enqueued, now)
  {
    if requestId < |db.requests| {
      ScopeMeans(user, db.requests[requestId].opcoId);
      LegibleMeans(db.requests[requestId].rawRequestText);
    }
    BusyMeans(a, requestId);
    hide QueueRun, Readable, Legible, InScope, MayTouch, Busy, HasOpenRun;
  }

  lemma BusyMeans(a: Agent, requestId: RequestId)
    ensures HasOpenRun(a, requestId) <==> Busy(a, requestId)
  {
  }

  /** From a conversation only the switch is asked. */
  lemma ConversationStartsExactlyWhen(a: Agent, user: Actor, conversation: string, about: Option<RequestId>, usable: bool, enqueued: bool, now: Time)
    ensures AgentRuns.StartConversationRun(a, user, conversation, about, usable, enqueued, now) ==
      if SwitchedOff(a) then (a, Err(Conflict)) else QueueRun(a, user, about, Some(conversation), usable, enqueued, now)
  {
    hide QueueRun;
  }

  // ── stopping ──

  /** The run's pending proposals are dropped as rejected, by nobody and at no time; the rest stand. */
  ghost predicate Dropped(before: seq<Proposal>, after: seq<Proposal>, r: RunId) {
    && |after| == |before|
    && forall p :: 0 <= p < |before| ==>
         after[p] == (if before[p].runId == r && before[p].status == Pending then before[p].(status := Rejected) else before[p])
  }

  /** The run has ended like this, now, and its pending proposals with it. */
  ghost predicate StoppedAs(a: Agent, after: Agent, r: RunId, status: RunStatus, now: Time)
    requires r < |a.runs|
  {
    && after == a.(runs := a.runs[r := a.runs[r].(status := status, endedAt := Some(now))], proposals := after.proposals)
    && Dropped(a.proposals, after.proposals, r)
  }

  /** The caller may see the run: it is there, and its request, if there is one, is theirs to touch. */
  predicate MaySee(db: Db, a: Agent, user: Actor, r: nat) {
    && r < |a.runs|
    && var about := a.runs[r].requestId;
       about == None || about.value >= |db.requests| || MayTouch(user, db.requests[about.value].opcoId)
  }

  lemma MaySeeMeans(db: Db, a: Agent, user: Actor, r: nat)
    ensures ViewRefusal(db, a, user, r) ==
      if MaySee(db, a, user, r) then None else if r >= |a.runs| then Some(NotFound) else Some(Forbidden)
  {
    if r < |a.runs| && a.runs[r].requestId.Some? && a.runs[r].requestId.value < |db.requests| {
      ScopeMeans(user, db.requests[a.runs[r].requestId.value].opcoId);
    }
    hide InScope, MayTouch;
  }

  /** An open run is aborted by whoever may see it. */
  lemma AbortsExactlyWhen(db: Db, a: Agent, user: Actor, r: nat, now: Time)
    ensures var (after, refusal) := AgentRuns.AbortRun(db, a, user, r, now);
      if MaySee(db, a, user, r) && Open(a.runs[r]) then refusal == None && StoppedAs(a, after, r, Aborted, now)
      else (after, refusal) == (a, Some(if r >= |a.runs| then NotFound else if !MaySee(db, a, user, r) then Forbidden else Conflict))
  {
    MaySeeMeans(db, a, user, r);
    hide ViewRefusal, MayTouch;
  }

  /** An ended run is hidden, and any run is put back, by whoever may see it; nothing else moves. */
  lemma HidesExactlyWhen(db: Db, a: Agent, user: Actor, r: nat, now: Time)
    ensures AgentRuns.HideRun(db, a, user, r, now) ==
      if MaySee(db, a, user, r) && !Open(a.runs[r]) then (a.(runs := a.runs[r := a.runs[r].(hiddenAt := Some(now))]), None)
      else (a, Some(if r >= |a.runs| then NotFound else if !MaySee(db, a, user, r) then Forbidden else Conflict))
    ensures AgentRuns.UnhideRun(db, a, user, r) ==
      if MaySee(db, a, user, r) then (a.(runs := a.runs[r := a.runs[r].(hiddenAt := None)]), None)
      else (a, Some(if r >= |a.runs| then NotFound else Forbidden))
  {
    MaySeeMeans(db, a, user, r);
    hide ViewRefusal, MayTouch;
  }

  lemma ExpiryStops(a: Agent, r: RunId, now: Time)
    requires r < |a.runs|
    ensures StoppedAs(a, ExpireRun(a, r, now), r, Expired, now)
  {
  }

  // ── the sweep ──

  /** Seven days, in milliseconds. */
  lemma StaleMeans(run: AgentRun, now: Time)
    ensures Stale(run, now) <==> run.status == AwaitingApproval && run.startedAt + 604_800_000 < now
  {
  }

  lemma BatchMeans(runs: seq<AgentRun>, now: Time, found: seq<RunId>)
    requires StaleBatch(runs, now, found)
    ensures |found| <= 50
    ensures forall i :: 0 <= i < |found| ==>
      found[i] < |runs| && runs[found[i]].status == AwaitingApproval && runs[found[i]].startedAt + 604_800_000 < now
    ensures forall r :: 0 <= r < |runs| && runs[r].status == AwaitingApproval && runs[r].startedAt + 604_800_000 < now && r !in found ==>
      |found| == 50 && forall i :: 0 <= i < |found| ==> runs[found[i]].startedAt <= runs[r].startedAt
  {
    forall r | 0 <= r < |runs| ensures Stale(runs[r], now) <==> runs[r].status == AwaitingApproval && runs[r].startedAt + 604_800_000 < now {
      StaleMeans(runs[r], now);
    }
    hide Stale;
  }

  /** A sweep ends exactly the runs it found, and drops exactly their pending proposals. */
  lemma {:induction false} SweepDoes(a: Agent, found: seq<RunId>, now: Time)
    requires forall i :: 0 <= i < |found| ==> found[i] < |a.runs|
    ensures var after := ExpireAll(a, found, now);
      && after == a.(runs := after.runs, proposals := after.proposals)
      && |after.runs| == |a.runs| && |after.proposals| == |a.proposals|
      && (forall r :: 0 <= r < |a.runs| ==>
            after.runs[r] == (if r in found then a.runs[r].(status := Expired, endedAt := Some(now)) else a.runs[r]))
      && (forall p :: 0 <= p < |a.proposals| ==>
            after.proposals[p] == (if a.proposals[p].runId in found && a.proposals[p].status == Pending
                                   then a.proposals[p].(status := Rejected) else a.proposals[p]))
    decreases |found|
  {
    if found != [] {
      var init, r := found[..|found| - 1], found[|found| - 1];
      assert found == init + [r];
      SweepDoes(a, init, now);
      ExpiryStops(ExpireAll(a, init, now), r, now);
      hide ExpireRun;
    }
  }

  // ── the switch ──

  lemma SwitchDoes(a: Agent, enabled: bool)
    ensures AgentRuns.SetSwitch(a, enabled) == a.(principal := Some(enabled))
    ensures a.Enabled() <==> !SwitchedOff(a)
  {
  }

  function OpenRuns(runs: seq<AgentRun>): set<RunId> {
    set r | 0 <= r < |runs| && Open(runs[r])
  }

  function Waiting(proposals: seq<Proposal>): set<ProposalId> {
    set p | 0 <= p < |proposals| && proposals[p].status == Pending
  }

  lemma {:induction false} LiveRunsAreTheOpenOnes(runs: seq<AgentRun>)
    ensures LiveRuns(runs) == |OpenRuns(runs)|
  {
    if runs != [] {
      var last := |runs| - 1;
      LiveRunsAreTheOpenOnes(runs[..last]);
      assert OpenRuns(runs) == OpenRuns(runs[..last]) + (if Open(runs[last]) then {last} else {});
    }
  }

  lemma {:induction false} PendingProposalsAreTheWaitingOnes(proposals: seq<Proposal>)
    ensures PendingProposals(proposals) == |Waiting(proposals)|
  {
    if proposals != [] {
      var last := |proposals| - 1;
      PendingProposalsAreTheWaitingOnes(proposals[..last]);
      assert Waiting(proposals) == Waiting(proposals[..last]) + (if proposals[last].status == Pending then {last} else {});
    }
  }

  /** Settled: switched off, no run open, no proposal waiting. */
  lemma SettledMeans(a: Agent)
    ensures AgentRuns.Settled(a) <==>
      && SwitchedOff(a)
      && (forall r :: 0 <= r < |a.runs| ==> !Open(a.runs[r]))
      && (forall p :: 0 <= p < |a.proposals| ==> a.proposals[p].status != Pending)
  {
    LiveRunsAreTheOpenOnes(a.runs);
    PendingProposalsAreTheWaitingOnes(a.proposals);
    assert |OpenRuns(a.runs)| == 0 <==> OpenRuns(a.runs) == {};
    assert |Waiting(a.proposals)| == 0 <==> Waiting(a.proposals) == {};
    if forall r :: 0 <= r < |a.runs| ==> !Open(a.runs[r]) {
      assert OpenRuns(a.runs) == {};
    }
    if r :| 0 <= r < |a.runs| && Open(a.runs[r]) {
      assert r in OpenRuns(a.runs);
    }
    if forall p :: 0 <= p < |a.proposals| ==> a.proposals[p].status != Pending {
      assert Waiting(a.proposals) == {};
    }
    if p :| 0 <= p < |a.proposals| && a.proposals[p].status == Pending {
      assert p in Waiting(a.proposals);
    }
    hide LiveRuns, PendingProposals;
  }
}
