/** The approval orchestrator over the shared tables (apps/api/src/agent-approval/agent-approval.service.ts). */
module ApprovalService {
  import opened Wrappers
  import opened Database
  import opened Outside
  import opened AgentRuns
  import opened AgentApproval
  import AgentServices
  import Assign
  import IntakeService
  import RequestService

  class Service {
    const db: Tables
    const vendors: Vendors
    const rows: AgentServices.AgentTables
    const aiAssist: AgentServices.AiAssist
    const requests: RequestService.Service
    const assign: Assign.Service

    constructor (db: Tables, vendors: Vendors, rows: AgentServices.AgentTables, aiAssist: AgentServices.AiAssist,
                 requests: RequestService.Service, assign: Assign.Service)
      ensures this.db == db && this.vendors == vendors && this.rows == rows
      ensures this.aiAssist == aiAssist && this.requests == requests && this.assign == assign
    {
      this.db, this.vendors, this.rows := db, vendors, rows;
      this.aiAssist, this.requests, this.assign := aiAssist, requests, assign;
    }

    predicate Wired() {
      && aiAssist.rows == rows && aiAssist.killSwitch.rows == rows
      && requests.db == db && requests.stage.db == db
      && assign.db == db && assign.vendors == vendors
    }

    function State(): Site
      reads db, vendors, rows
    {
      Site(WorldOf(db, vendors), rows.State())
    }

    method LoadDecidable(p: nat) returns (error: Option<Error>)
      ensures error == Undecidable(rows.State(), p)
    {
      if p >= |rows.proposals| {
        return Some(NotFound);
      }
      var proposal := rows.proposals[p];
      if proposal.status != Pending {
        return Some(Conflict);
      }
      if proposal.runId >= |rows.runs| || rows.runs[proposal.runId].status != AwaitingApproval {
        return Some(Conflict);
      }
      if proposal.interruptionRef == "" {
        return Some(Conflict);
      }
      return None;
    }

    method ApproveProposal(p: nat, approver: Actor, o: ApprovalOracle) returns (result: Result<RunStatus>)
      requires State().Valid() && Wired()
      modifies db, vendors, rows
      ensures (State(), result) == Approve(old(State()), p, approver, o)
    {
      hide ApproveAssign, ApproveLineItems, Database.Db.Valid;
      var off := aiAssist.killSwitch.AssertEnabled();
      if off.Some? {
        return Err(off.value);
      }
      var refusal := LoadDecidable(p);
      if refusal.Some? {
        return Err(refusal.value);
      }
      if rows.proposals[p].kind == AssignOne {
        result := RunAssign(p, approver, o);
      } else {
        result := RunLineItems(p, approver, o);
      }
    }

    method Decide(p: ProposalId, status: ProposalStatus, approver: Actor, now: Time, created: seq<LineId>)
      requires p < |rows.proposals|
      modifies rows
      ensures rows.State() == Decided(old(rows.State()), p, status, approver, now, created)
    {
      rows.proposals := rows.proposals[p := rows.proposals[p].(
        status := status, approvedById := Some(approver.id), decidedAt := Some(now), createdLineItemIds := created)];
    }

    method RunAssign(p: nat, approver: Actor, o: ApprovalOracle) returns (result: Result<RunStatus>)
      requires State().Valid() && Wired() && p < |rows.proposals|
      modifies db, vendors, rows
      ensures (State(), result) == ApproveAssign(old(State()), p, approver, o)
    {
      hide Assign.Outcome, ResumeRun, Database.Db.Valid;
      var r := rows.proposals[p].runId;
      var lineItemId := rows.proposals[p].payload.lineItemId;
      if lineItemId == None {
        return Err(BadRequest);
      }
      var answer := assign.AssignLineItem(Assign.AssignCall(lineItemId.value, None, approver, None), o.assign);
      if answer.Thrown? {
        return Err(answer.error);
      }
      Decide(p, if answer.Blocked? then ProposalFailed else Executed, approver, o.now, []);
      result := aiAssist.Resume(r, o.turn, o.now);
    }

    method RunLineItems(p: nat, approver: Actor, o: ApprovalOracle) returns (result: Result<RunStatus>)
      requires State().Valid() && Wired() && p < |rows.proposals|
      modifies db, vendors, rows
      ensures (State(), result) == ApproveLineItems(old(State()), p, approver, o)
    {
      hide CreateLines, LineDtos, PayloadRefusal, ResumeRun, Database.Db.Valid;
      var r := rows.proposals[p].runId;
      var refusal, dtos := Resolve(p);
      if refusal.Some? {
        return Err(refusal.value);
      }
      PayloadNamesARequest(db.State(), rows.State(), p);
      var created, error := CreateLineItems(rows.runs[r].requestId.value, dtos, approver, o.failsAt);
      if error.Some? {
        Decide(p, ProposalFailed, approver, o.now, []);
        return Err(error.value);
      }
      Decide(p, Executed, approver, o.now, created);
      result := aiAssist.Resume(r, o.turn, o.now);
    }

    lemma PayloadNamesARequest(db: Db, a: Agent, p: ProposalId)
      requires a.Valid() && p < |a.proposals| && PayloadRefusal(db, a, p).None?
      ensures a.runs[a.proposals[p].runId].requestId.Some?
    {
    }

    /** parsePayload, the run's own request, and every SKU, before the first write. */
    method Resolve(p: ProposalId) returns (refusal: Option<Error>, dtos: seq<RequestService.LineDto>)
      requires State().Valid() && p < |rows.proposals|
      ensures refusal == PayloadRefusal(db.State(), rows.State(), p)
      ensures refusal.None? ==> dtos == LineDtos(db.State(), rows.State(), p)
    {
      dtos := [];
      var payload := rows.proposals[p].payload;
      var requestId := rows.runs[rows.proposals[p].runId].requestId;
      if requestId == None {
        return Some(Conflict), dtos;
      }
      if payload.requestId == None || payload.items == None || payload.items.value == [] {
        return Some(BadRequest), dtos;
      }
      var items := payload.items.value;
      for i := 0 to |items|
        invariant forall k :: 0 <= k < i ==> ReadableItem(items[k])
      {
        if !ReadableItem(items[i]) {
          return Some(BadRequest), dtos;
        }
      }
      if payload.requestId != requestId {
        return Some(BadRequest), dtos;
      }
      for i := 0 to |items|
        invariant forall k :: 0 <= k < i ==> IntakeService.Orderable(db.catalogue, items[k].skuId.value)
        invariant |dtos| == i
        invariant forall k :: 0 <= k < i ==>
          dtos[k] == RequestService.LineDto(db.catalogue.skuByGuid[items[k].skuId.value], items[k].quantity, false)
      {
        if !IntakeService.Orderable(db.catalogue, items[i].skuId.value) {
          return Some(BadRequest), dtos;
        }
        dtos := dtos + [RequestService.LineDto(db.catalogue.skuByGuid[items[i].skuId.value], items[i].quantity, false)];
      }
      return None, dtos;
    }

    /** The existing line-creation call, once per proposed line. */
    method CreateLineItems(r: RequestId, dtos: seq<RequestService.LineDto>, approver: Actor, failsAt: nat)
      returns (created: seq<LineId>, error: Option<Error>)
      requires db.State().Valid() && Wired()
      modifies db
      ensures (db.State(), created, error) == CreateLines(old(db.State()), r, dtos, |dtos|, approver, failsAt)
    {
      hide Database.Db.Valid, RequestService.AddLine;
      created := [];
      ghost var before := db.State();
      for i := 0 to |dtos|
        invariant db.State().Valid()
        invariant (db.State(), created, None) == CreateLines(before, r, dtos, i, approver, failsAt)
      {
        ErrorsStick(before, r, dtos, i + 1, |dtos|, approver, failsAt);
        if i == failsAt {
          return created, Some(DatabaseError);
        }
        var line := requests.AddLineItem(r, dtos[i], approver);
        if line.Err? {
          return created, Some(line.error);
        }
        created := created + [line.value];
      }
      return created, None;
    }

    /** Once a creation has failed the list is left there. */
    lemma {:induction false} ErrorsStick(db: Db, r: RequestId, dtos: seq<RequestService.LineDto>, n: nat, m: nat, approver: Actor, failsAt: nat)
      requires db.Valid() && n <= m <= |dtos|
      ensures CreateLines(db, r, dtos, n, approver, failsAt).2.Some? ==>
        CreateLines(db, r, dtos, m, approver, failsAt) == CreateLines(db, r, dtos, n, approver, failsAt)
      decreases m
    {
      hide RequestService.AddLine, Database.Db.Valid;
      if n < m {
        ErrorsStick(db, r, dtos, n, m - 1, approver, failsAt);
      }
    }

    method RejectProposal(p: nat, approver: Actor, turn: Turn, now: Time) returns (result: Result<RunStatus>)
      requires State().Valid() && Wired()
      modifies rows
      ensures (rows.State(), result) == Reject(old(rows.State()), p, approver, turn, now)
    {
      hide ResumeRun;
      var refusal := LoadDecidable(p);
      if refusal.Some? {
        return Err(refusal.value);
      }
      var r := rows.proposals[p].runId;
      Decide(p, Rejected, approver, now, rows.proposals[p].createdLineItemIds);
      result := aiAssist.Resume(r, turn, now);
    }
  }
}
