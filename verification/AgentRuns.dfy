/**
  Agent runs and the proposals they pause on: the rows, and what each call of the
  run lifecycle does to them (apps/api/src/agent/ai-assist.service.ts,
  agent-run-status.ts, kill-switch.service.ts, run-expiry.service.ts).
 */
module AgentRuns {
  import opened Wrappers
  import opened Database

  type RunId = nat
  type ProposalId = nat

  datatype RunStatus = Running | AwaitingApproval | Approved | RunCompleted | RunFailed | Aborted | Expired

  const NON_TERMINAL_RUN_STATUSES: set<RunStatus> := {Running, AwaitingApproval, Approved}

  predicate Terminal(status: RunStatus) {
    status !in NON_TERMINAL_RUN_STATUSES
  }

  datatype AgentRun = AgentRun(
    startedBy: Actor,
    requestId: Option<RequestId>,
    conversationId: Option<string>,
    status: RunStatus,
    runState: Option<string>,
    startedAt: Time,
    endedAt: Option<Time>,
    hiddenAt: Option<Time>
  )

  datatype Kind = LineItems | AssignOne

  /** The arguments a model wrote; `None` stands for absent or of the wrong type. */
  datatype Item = Item(skuId: Option<string>, quantity: Option<int>)
  datatype Args = Args(requestId: Option<RequestId>, items: Option<seq<Item>>, lineItemId: Option<LineId>)

  datatype ProposalStatus = Pending | Rejected | Executed | ProposalFailed

  datatype Proposal = Proposal(
    runId: RunId,
    kind: Kind,
    interruptionRef: string,
    payload: Args,
    status: ProposalStatus,
    approvedById: Option<string>,
    createdAt: Time,
    decidedAt: Option<Time>,
    createdLineItemIds: seq<LineId>
  )

  /** The agent tables; `principal` is the ai-assist principal's `active` flag, once there is a row. */
  datatype Agent = Agent(principal: Option<bool>, runs: seq<AgentRun>, proposals: seq<Proposal>) {
    /** assertEnabled: no row yet means never used, not switched off. */
    predicate Enabled() {
      principal != Some(false)
    }

    ghost predicate Valid() {
      forall p :: 0 <= p < |proposals| ==> proposals[p].runId < |runs|
    }
  }

  /** What the runtime answers when it is started or resumed. */
  datatype PendingCall = PendingCall(ref: string, toolName: string, args: Args)

  datatype Turn =
    | TurnThrows
    | TurnCompleted
    | TurnPaused(state: string, pendingApprovals: seq<PendingCall>)

  function KindOf(toolName: string): Option<Kind> {
    if toolName == "propose_line_items" then Some(LineItems)
    else if toolName == "propose_assign" then Some(AssignOne)
    else None
  }

  function SetRun(a: Agent, r: RunId, run: AgentRun): (after: Agent)
    requires r < |a.runs|
    ensures a.Valid() ==> after.Valid()
  {
    a.(runs := a.runs[r := run])
  }

  function EndRun(a: Agent, r: RunId, status: RunStatus, now: Time): (after: Agent)
    requires r < |a.runs|
    ensures a.Valid() ==> after.Valid()
  {
    SetRun(a, r, a.runs[r].(status := status, endedAt := Some(now)))
  }

  /** failRun leaves the run's proposals as they are. */
  function FailRun(a: Agent, r: RunId, now: Time): (after: Agent)
    requires r < |a.runs|
    ensures a.Valid() ==> after.Valid()
  {
    EndRun(a, r, RunFailed, now)
  }

  /** A run's pending proposals go with it; nobody decided them, so both decision columns stay empty. */
  function DropPending(proposals: seq<Proposal>, r: RunId): (after: seq<Proposal>)
    ensures |after| == |proposals|
    ensures forall p :: 0 <= p < |after| ==> after[p].runId == proposals[p].runId
  {
    seq(|proposals|, p requires 0 <= p < |proposals| =>
      if proposals[p].runId == r && proposals[p].status == Pending then proposals[p].(status := Rejected) else proposals[p])
  }

  function ExpireRun(a: Agent, r: RunId, now: Time): (after: Agent)
    requires r < |a.runs|
    ensures a.Valid() ==> after.Valid()
  {
    var ended := EndRun(a, r, Expired, now);
    ended.(proposals := DropPending(ended.proposals, r))
  }

  function NewProposal(r: RunId, pending: PendingCall, kind: Kind, now: Time): Proposal {
    Proposal(r, kind, pending.ref, pending.args, Pending, None, now, None, [])
  }

  /** The pauses recorded before the first one whose tool is not recognised, if there is one. */
  function Recorded(r: RunId, pendings: seq<PendingCall>, now: Time): (rows: seq<Proposal>)
    ensures |rows| <= |pendings|
    ensures forall p :: 0 <= p < |rows| ==>
      rows[p].runId == r && rows[p].status == Pending && rows[p].approvedById.None? && rows[p].decidedAt.None?
  {
    if pendings == [] || KindOf(pendings[0].toolName).None? then []
    else [NewProposal(r, pendings[0], KindOf(pendings[0].toolName).value, now)] + Recorded(r, pendings[1..], now)
  }

  /** One stretch of execution turned into rows, or ended in a failed run. */
  function RunTurn(a: Agent, r: RunId, turn: Turn, now: Time): (out: (Agent, Result<RunStatus>))
    requires r < |a.runs|
    ensures a.Valid() ==> out.0.Valid()
  {
    match turn
    case TurnThrows => (FailRun(a, r, now), Err(Internal))
    case TurnCompleted =>
      (SetRun(a, r, a.runs[r].(status := RunCompleted, endedAt := Some(now), runState := None)), Ok(RunCompleted))
    case TurnPaused(state, pendings) =>
      var rows := Recorded(r, pendings, now);
      var noted := a.(proposals := a.proposals + rows);
      if |rows| < |pendings| then (FailRun(noted, r, now), Err(BadRequest))
      else (SetRun(noted, r, a.runs[r].(status := AwaitingApproval, runState := Some(state))), Ok(AwaitingApproval))
  }

  function ExecuteRun(a: Agent, r: nat, turn: Turn, now: Time): (out: (Agent, Result<RunStatus>))
    ensures a.Valid() ==> out.0.Valid()
  {
    if r >= |a.runs| then (a, Err(NotFound))
    else if a.runs[r].status != Running then (a, Err(Conflict))
    else if !a.Enabled() then (FailRun(a, r, now), Err(Conflict))
    else RunTurn(a, r, turn, now)
  }

  /** A saved state is readable when it is a string that does not trim to nothing. */
  predicate Readable(state: Option<string>) {
    state.Some? && !forall c :: c in state.value ==> c in {' ', '\t', '\n', '\r'}
  }

  function ResumeRun(a: Agent, r: nat, turn: Turn, now: Time): (out: (Agent, Result<RunStatus>))
    ensures a.Valid() ==> out.0.Valid()
  {
    if !a.Enabled() then (a, Err(Conflict))
    else if r >= |a.runs| then (a, Err(NotFound))
    else if a.runs[r].status != AwaitingApproval then (a, Err(Conflict))
    else if !Readable(a.runs[r].runState) then (ExpireRun(a, r, now), Err(Unavailable))
    else RunTurn(a, r, turn, now)
  }

  /** Both entry points past their guards: settle the principal and the profile, write the row, queue it. */
  function QueueRun(a: Agent, user: Actor, requestId: Option<RequestId>, conversationId: Option<string>,
                    profileUsable: bool, enqueued: bool, now: Time): (out: (Agent, Result<RunId>))
    ensures a.Valid() ==> out.0.Valid()
  {
    var settled := a.(principal := Some(a.principal.GetOr(true)));
    if settled.principal == Some(false) then (settled, Err(Conflict))
    else if !profileUsable then (settled, Err(BadRequest))
    else
      var r := |a.runs|;
      var started := settled.(runs := a.runs + [AgentRun(user, requestId, conversationId, Running, None, now, None, None)]);
      if enqueued then (started, Ok(r)) else (FailRun(started, r, now), Err(Internal))
  }

  predicate HasOpenRun(a: Agent, requestId: RequestId) {
    exists r :: 0 <= r < |a.runs| && a.runs[r].requestId == Some(requestId) && !Terminal(a.runs[r].status)
  }

  /** assertRequestIsUsable */
  function RequestRefusal(db: Db, user: Actor, requestId: nat): Option<Error> {
    if requestId >= |db.requests| then Some(NotFound)
    else if !InScope(user, db.requests[requestId].opcoId) then Some(Forbidden)
    else if !Readable(db.requests[requestId].rawRequestText) then Some(BadRequest)
    else None
  }

  function StartRun(db: Db, a: Agent, user: Actor, requestId: nat, profileUsable: bool, enqueued: bool, now: Time): (out: (Agent, Result<RunId>))
    ensures a.Valid() ==> out.0.Valid()
  {
    var refusal := RequestRefusal(db, user, requestId);
    if !a.Enabled() then (a, Err(Conflict))
    else if refusal.Some? then (a, Err(refusal.value))
    else if HasOpenRun(a, requestId) then (a, Err(Conflict))
    else QueueRun(a, user, Some(requestId), None, profileUsable, enqueued, now)
  }

  function StartConversationRun(a: Agent, user: Actor, conversationId: string, requestId: Option<RequestId>,
                                profileUsable: bool, enqueued: bool, now: Time): (out: (Agent, Result<RunId>))
    ensures a.Valid() ==> out.0.Valid()
  {
    if !a.Enabled() then (a, Err(Conflict))
    else QueueRun(a, user, requestId, Some(conversationId), profileUsable, enqueued, now)
  }

  /** getRun: the run exists, and its request, if it has one, is in the caller's scope. */
  function ViewRefusal(db: Db, a: Agent, user: Actor, r: nat): Option<Error> {
    if r >= |a.runs| then Some(NotFound)
    else
      var requestId := a.runs[r].requestId;
      if requestId.Some? && requestId.value < |db.requests| && !InScope(user, db.requests[requestId.value].opcoId) then Some(Forbidden)
      else None
  }

  function AbortRun(db: Db, a: Agent, user: Actor, r: nat, now: Time): (out: (Agent, Option<Error>))
    ensures a.Valid() ==> out.0.Valid()
  {
    var refusal := ViewRefusal(db, a, user, r);
    if refusal.Some? then (a, refusal)
    else if Terminal(a.runs[r].status) then (a, Some(Conflict))
    else
      var ended := EndRun(a, r, Aborted, now);
      (ended.(proposals := DropPending(ended.proposals, r)), None)
  }

  function HideRun(db: Db, a: Agent, user: Actor, r: nat, now: Time): (out: (Agent, Option<Error>))
    ensures a.Valid() ==> out.0.Valid()
  {
    var refusal := ViewRefusal(db, a, user, r);
    if refusal.Some? then (a, refusal)
    else if !Terminal(a.runs[r].status) then (a, Some(Conflict))
    else (SetRun(a, r, a.runs[r].(hiddenAt := Some(now))), None)
  }

  function UnhideRun(db: Db, a: Agent, user: Actor, r: nat): (out: (Agent, Option<Error>))
    ensures a.Valid() ==> out.0.Valid()
  {
    var refusal := ViewRefusal(db, a, user, r);
    if refusal.Some? then (a, refusal)
    else (SetRun(a, r, a.runs[r].(hiddenAt := None)), None)
  }

  function SetSwitch(a: Agent, enabled: bool): (after: Agent)
    ensures a.Valid() ==> after.Valid()
  {
    a.(principal := Some(enabled))
  }

  // ── expiry ──

  const EXPIRY_BATCH: nat := 50
  const EXPIRY_DAYS: nat := 7
  const MS_PER_DAY: int := 86_400_000

  predicate Stale(run: AgentRun, now: Time) {
    run.status == AwaitingApproval && run.startedAt < now - EXPIRY_DAYS * MS_PER_DAY
  }

  /** What the sweep's query may return: stale runs, none twice, no older one passed over for
      a newer one, and as many as there are up to the batch. */
  ghost predicate StaleBatch(runs: seq<AgentRun>, now: Time, found: seq<RunId>) {
    && |found| <= EXPIRY_BATCH
    && (forall i :: 0 <= i < |found| ==> found[i] < |runs| && Stale(runs[found[i]], now))
    && (forall i, j :: 0 <= i < j < |found| ==> found[i] != found[j])
    && (forall r :: 0 <= r < |runs| && Stale(runs[r], now) && r !in found ==>
          |found| == EXPIRY_BATCH && forall i :: 0 <= i < |found| ==> runs[found[i]].startedAt <= runs[r].startedAt)
  }

  /** Expire the found runs one after the other. */
  function ExpireAll(a: Agent, found: seq<RunId>, now: Time): (after: Agent)
    requires forall i :: 0 <= i < |found| ==> found[i] < |a.runs|
    ensures a.Valid() ==> after.Valid()
    ensures |after.runs| == |a.runs|
    decreases |found|
  {
    if found == [] then a
    else ExpireRun(ExpireAll(a, found[..|found| - 1], now), found[|found| - 1], now)
  }

  // ── the switch's status ──

  function LiveRuns(runs: seq<AgentRun>): nat {
    if runs == [] then 0
    else LiveRuns(runs[..|runs| - 1]) + (if Terminal(runs[|runs| - 1].status) then 0 else 1)
  }

  function PendingProposals(proposals: seq<Proposal>): nat {
    if proposals == [] then 0
    else PendingProposals(proposals[..|proposals| - 1]) + (if proposals[|proposals| - 1].status == Pending then 1 else 0)
  }

  predicate Settled(a: Agent) {
    !a.Enabled() && LiveRuns(a.runs) == 0 && PendingProposals(a.proposals) == 0
  }
}
