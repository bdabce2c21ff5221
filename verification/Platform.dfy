/** Every fulfilment call as one step of one machine, and runs of that machine. */
module Platform {
  import opened Wrappers
  import opened Stages
  import opened Database
  import opened Outside
  import StageService
  import RequestService
  import SyncGates
  import Assign
  import IntakeService
  import OutboundRequest
  import OutboundRetry
  import LicenceTicket
  import FailureQueue
  import J = Json

  /** A call and every answer the outside world gives while it runs. */
  datatype Call =
    | FileRequest(fileDto: RequestService.IntakeDto, record: RequestService.RecordLookup, actor: Actor)
    | PushRequest(pushDto: IntakeService.IntakeDto, writeFails: bool)
    | PushFlat(flatDto: LicenceTicket.FlatDto, defaultSkuId: Option<string>, req: LicenceTicket.ReqLookup,
               writeFails: bool, submit: SubmitOutcome, ticketWriteFails: bool)
    | CreateOutbound(createDto: OutboundRequest.CreateDto, actor: Actor, submit: SubmitOutcome, writeFails: bool)
    | RetryFailure(failureId: nat, actor: Actor, repair: OutboundRetry.RepairOracle)
    | QueueNotification(to: string, template: string)
    | AbandonFailure(failureId: nat, actor: Actor)
    | ReopenFailure(failureId: nat)
    | AddLine(requestId: nat, lineDto: RequestService.LineDto, actor: Actor)
    | EditHeader(requestId: nat, patch: RequestService.HeaderPatch, actor: Actor)
    | RemoveLine(requestId: nat, lineId: LineId, actor: Actor)
    | AdvanceLine(lineId: LineId, toStage: Stage, actor: Actor, now: Time)
    | MarkSynced(requestId: nat, actor: Actor, now: Time)
    | SweepAzure(requestId: nat, now: Time)
    | SweepServiceNowUser(requestId: nat, userSysId: string, now: Time)
    | AssignLine(assignCall: Assign.AssignCall, answers: Assign.Oracle)

  /** The two sweeps only ever name a request they have just read. */
  function Step(w: World, c: Call): (after: World)
    requires w.db.Valid()
    ensures after.db.Valid()
  {
    match c
    case FileRequest(dto, record, actor) => w.(db := RequestService.Intake(w.db, dto, record, actor).0)
    case PushRequest(dto, writeFails) => w.(db := IntakeService.Intake(w.db, dto, writeFails).0)
    case PushFlat(dto, sku, req, writeFails, submit, ticketWriteFails) =>
      LicenceTicket.IntakeFlat(w, dto, sku, req, writeFails, submit, ticketWriteFails).0
    case CreateOutbound(dto, actor, submit, writeFails) => OutboundRequest.Create(w, dto, actor, submit, writeFails).0
    case RetryFailure(id, actor, repair) => OutboundRetry.Retry(w, id, actor, repair).0
    case QueueNotification(to, template) =>
      w.(db := FailureQueue.Recorded(w.db, Notification, J.Obj(map["to" := J.Str(to), "template" := J.Str(template)]), J.Undefined, None))
    case AbandonFailure(id, actor) => OutboundRetry.Abandon(w, id, actor).0
    case ReopenFailure(id) => OutboundRetry.Reopen(w, id).0
    case AddLine(r, dto, actor) => w.(db := RequestService.AddLine(w.db, r, dto, actor).0)
    case EditHeader(r, patch, actor) => w.(db := RequestService.UpdateHeader(w.db, r, patch, actor).0)
    case RemoveLine(r, l, actor) => w.(db := RequestService.RemoveLine(w.db, r, l, actor).0)
    case AdvanceLine(l, toStage, actor, now) => w.(db := StageService.Advance(w.db, l, toStage, actor, now).0)
    case MarkSynced(r, actor, now) => w.(db := SyncGates.MarkSynced(w.db, r, actor, now).0)
    case SweepAzure(r, now) => if r < |w.db.requests| then w.(db := SyncGates.OpenAzure(w.db, r, now)) else w
    case SweepServiceNowUser(r, userSysId, now) =>
      if r < |w.db.requests| then w.(db := SyncGates.OpenServiceNowUser(w.db, r, userSysId, now)) else w
    case AssignLine(call, answers) => Assign.Outcome(w, call, answers).0
  }

  function Run(w: World, calls: seq<Call>): (after: World)
    requires w.db.Valid()
    ensures after.db.Valid()
    decreases |calls|
  {
    if calls == [] then w else Run(Step(w, calls[0]), calls[1..])
  }

  lemma OneCall(w: World, c: Call)
    requires w.db.Valid()
    ensures Run(w, [c]) == Step(w, c)
  {
    hide Step, Db.Valid;
    assert Run(w, [c]) == Run(Step(w, c), [c][1..]);
  }

  lemma OneMoreCall(w: World, calls: seq<Call>, c: Call)
    requires w.db.Valid()
    ensures Run(w, calls + [c]) == Step(Run(w, calls), c)
  {
    hide Step, Run, Db.Valid;
    RunConcat(w, calls, [c]);
    OneCall(Run(w, calls), c);
  }

  lemma {:induction false} RunConcat(w: World, first: seq<Call>, second: seq<Call>)
    requires w.db.Valid()
    ensures Run(w, first + second) == Run(Run(w, first), second)
    decreases |first|
  {
    hide Step, Db.Valid;
    if first == [] {
      assert first + second == second;
    } else {
      assert (first + second)[1..] == first[1..] + second;
      RunConcat(Step(w, first[0]), first[1..], second);
    }
  }
}
