/**
  A person's decision on a proposal: the domain call it stands for, made by the
  ordinary operations, then the run resumed (apps/api/src/agent-approval/agent-approval.service.ts).
 */
module AgentApproval {
  import opened Wrappers
  import opened Stages
  import opened Database
  import opened Outside
  import opened AgentRuns
  import Assign
  import IntakeService
  import RequestService

  /** The platform and the agent tables beside it. */
  datatype Site = Site(world: World, agent: Agent) {
    ghost predicate Valid() {
      world.db.Valid() && agent.Valid()
    }
  }

  /** loadDecidable */
  function Undecidable(a: Agent, p: nat): Option<Error> {
    if p >= |a.proposals| then Some(NotFound)
    else if a.proposals[p].status != Pending then Some(Conflict)
    else if a.proposals[p].runId >= |a.runs| || a.runs[a.proposals[p].runId].status != AwaitingApproval then Some(Conflict)
    else if a.proposals[p].interruptionRef == "" then Some(Conflict)
    else None
  }

  /** A proposed item the platform can read. */
  predicate ReadableItem(item: Item) {
    item.skuId.Some? && item.quantity.Some? && item.quantity.value >= 1
  }

  /** parsePayload, the comparison with the run's own request, and resolveSkus, in that order. */
  function PayloadRefusal(db: Db, a: Agent, p: ProposalId): Option<Error>
    requires a.Valid() && p < |a.proposals|
  {
    var payload := a.proposals[p].payload;
    var requestId := a.runs[a.proposals[p].runId].requestId;
    if requestId.None? then Some(Conflict)
    else if payload.requestId.None? || payload.items.None? then Some(BadRequest)
    else if payload.items.value == [] then Some(BadRequest)
    else if exists i :: 0 <= i < |payload.items.value| && !ReadableItem(payload.items.value[i]) then Some(BadRequest)
    else if payload.requestId != requestId then Some(BadRequest)
    else if exists i :: 0 <= i < |payload.items.value| && !IntakeService.Orderable(db.catalogue, payload.items.value[i].skuId.value) then Some(BadRequest)
    else None
  }

  /** The line each proposed item asks for. */
  function LineDtos(db: Db, a: Agent, p: ProposalId): (dtos: seq<RequestService.LineDto>)
    requires a.Valid() && p < |a.proposals| && PayloadRefusal(db, a, p).None?
    ensures |dtos| == |a.proposals[p].payload.items.value|
  {
    var items := a.proposals[p].payload.items.value;
    seq(|items|, i requires 0 <= i < |items| =>
      RequestService.LineDto(db.catalogue.skuByGuid[items[i].skuId.value], items[i].quantity, false))
  }

  /** The first `n` lines through the ordinary line-creation call, stopping at the first that
      throws; `failsAt` is the call, if any, the database fails under. */
  function CreateLines(db: Db, r: RequestId, dtos: seq<RequestService.LineDto>, n: nat, approver: Actor, failsAt: nat):
    (out: (Db, seq<LineId>, Option<Error>))
    requires db.Valid() && n <= |dtos|
    ensures out.0.Valid() && |out.1| <= n && (out.2.None? <==> |out.1| == n)
    decreases n
  {
    if n == 0 then (db, [], None)
    else
      var (before, created, error) := CreateLines(db, r, dtos, n - 1, approver, failsAt);
      if error.Some? then (before, created, error)
      else if n - 1 == failsAt then (before, created, Some(DatabaseError))
      else
        var (after, line) := RequestService.AddLine(before, r, dtos[n - 1], approver);
        if line.Err? then (after, created, Some(line.error)) else (after, created + [line.value], None)
  }

  /** The decision recorded on a proposal, always with its decider and its time together. */
  function Decided(a: Agent, p: ProposalId, status: ProposalStatus, approver: Actor, now: Time, created: seq<LineId>): (after: Agent)
    requires p < |a.proposals|
    ensures a.Valid() ==> after.Valid()
  {
    a.(proposals := a.proposals[p := a.proposals[p].(
      status := status, approvedById := Some(approver.id), decidedAt := Some(now), createdLineItemIds := created)])
  }

  /** The answers one approval may need. */
  datatype ApprovalOracle = ApprovalOracle(failsAt: nat, assign: Assign.Oracle, turn: Turn, now: Time)

  function ApproveLineItems(s: Site, p: ProposalId, approver: Actor, o: ApprovalOracle): (out: (Site, Result<RunStatus>))
    requires s.Valid() && p < |s.agent.proposals|
    ensures out.0.Valid()
  {
    var a := s.agent;
    var refusal := PayloadRefusal(s.world.db, a, p);
    if refusal.Some? then (s, Err(refusal.value))
    else
      var r := a.proposals[p].runId;
      var dtos := LineDtos(s.world.db, a, p);
      var (db, created, error) := CreateLines(s.world.db, a.runs[r].requestId.value, dtos, |dtos|, approver, o.failsAt);
      var world := s.world.(db := db);
      if error.Some? then (Site(world, Decided(a, p, ProposalFailed, approver, o.now, [])), Err(error.value))
      else
        var (resumed, result) := ResumeRun(Decided(a, p, Executed, approver, o.now, created), r, o.turn, o.now);
        (Site(world, resumed), result)
  }

  /** The same call the request screen makes; this path never supplies an override. */
  function AssignCallOf(a: Agent, p: ProposalId, approver: Actor): Assign.AssignCall
    requires p < |a.proposals| && a.proposals[p].payload.lineItemId.Some?
  {
    Assign.AssignCall(a.proposals[p].payload.lineItemId.value, None, approver, None)
  }

  function ApproveAssign(s: Site, p: ProposalId, approver: Actor, o: ApprovalOracle): (out: (Site, Result<RunStatus>))
    requires s.Valid() && p < |s.agent.proposals|
    ensures out.0.Valid()
  {
    var a := s.agent;
    if a.proposals[p].payload.lineItemId.None? then (s, Err(BadRequest))
    else
      var (world, result) := Assign.Outcome(s.world, AssignCallOf(a, p, approver), o.assign);
      match result
      case Thrown(error) => (Site(world, a), Err(error))
      case Blocked(_, _) =>
        var (resumed, status) := ResumeRun(Decided(a, p, ProposalFailed, approver, o.now, []), a.proposals[p].runId, o.turn, o.now);
        (Site(world, resumed), status)
      case Done(_) =>
        var (resumed, status) := ResumeRun(Decided(a, p, Executed, approver, o.now, []), a.proposals[p].runId, o.turn, o.now);
        (Site(world, resumed), status)
  }

  function Approve(s: Site, p: nat, approver: Actor, o: ApprovalOracle): (out: (Site, Result<RunStatus>))
    requires s.Valid()
    ensures out.0.Valid()
  {
    if !s.agent.Enabled() then (s, Err(Conflict))
    else
      var refusal := Undecidable(s.agent, p);
      if refusal.Some? then (s, Err(refusal.value))
      else if s.agent.proposals[p].kind == AssignOne then ApproveAssign(s, p, approver, o)
      else ApproveLineItems(s, p, approver, o)
  }

  /** Rejecting asks no switch: people may always clean up after the agent. */
  function Reject(a: Agent, p: nat, approver: Actor, turn: Turn, now: Time): (out: (Agent, Result<RunStatus>))
    ensures a.Valid() ==> out.0.Valid()
  {
    var refusal := Undecidable(a, p);
    if refusal.Some? then (a, Err(refusal.value))
    else ResumeRun(Decided(a, p, Rejected, approver, now, a.proposals[p].createdLineItemIds), a.proposals[p].runId, turn, now)
  }
}
