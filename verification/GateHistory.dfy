/** Over every run: a sync gate of a request is opened by the calls that say so, and by no other. */
module GateHistory {
  import opened Wrappers
  import opened Stages
  import opened Database
  import opened Outside
  import opened History
  import opened Terms
  import opened Platform
  import PlatformHistory
  import StageService
  import R = RequestService
  import RequestLaws
  import SyncGates
  import A = Assign
  import AssignReport
  import IntakeLaws
  import IntakeService
  import OutboundRequest
  import OutboundRetry
  import LicenceTicket
  import J = Json

  /** The columns the gates are read from. */
  datatype Gates = Gates(accountCreatedAt: Option<Time>, azureSyncedAt: Option<Time>,
                         serviceNowUserSyncedAt: Option<Time>, serviceNowUserSysId: Option<string>)

  function GatesOf(req: Request): Gates {
    Gates(req.accountCreatedAt, req.azureSyncedAt, req.serviceNowUserSyncedAt, req.serviceNowUserSysId)
  }

  /** Requests may be added, and those there keep their gates. */
  ghost predicate GatesStand(before: Db, after: Db) {
    && |before.requests| <= |after.requests|
    && forall r :: 0 <= r < |before.requests| ==> GatesOf(after.requests[r]) == GatesOf(before.requests[r])
  }

  /** The manual assertion by an actor who may touch the request, or the sweep that found the account. */
  predicate OpensAzure(db: Db, c: Call, r: RequestId) {
    || (c.MarkSynced? && c.requestId == r && r < |db.requests| && MayTouch(c.actor, db.requests[r].opcoId))
    || (c.SweepAzure? && c.requestId == r)
  }

  predicate OpensServiceNowUser(c: Call, r: RequestId) {
    c.SweepServiceNowUser? && c.requestId == r
  }

  /** What one call does to the gates of a request: the Azure gate is dated now, and with it the
      account where it had no date; the ServiceNow gate is dated and its user named. */
  function GatesAfter(db: Db, c: Call, r: RequestId): Gates
    requires r < |db.requests|
  {
    var gates := GatesOf(db.requests[r]);
    if OpensAzure(db, c, r) then
      gates.(azureSyncedAt := Some(c.now), accountCreatedAt := if gates.accountCreatedAt == None then Some(c.now) else gates.accountCreatedAt)
    else if OpensServiceNowUser(c, r) then
      gates.(serviceNowUserSyncedAt := Some(c.now), serviceNowUserSysId := Some(c.userSysId))
    else gates
  }

  // ── call by call ──

  lemma AppendingKeepsGates(before: Db, after: Db)
    requires before.requests <= after.requests
    ensures GatesStand(before, after)
  {
  }

  lemma OneRequestKeepsGates(before: Db, after: Db, r: RequestId)
    requires r < |before.requests| == |after.requests|
    requires after.requests == before.requests[r := after.requests[r]] && GatesOf(after.requests[r]) == GatesOf(before.requests[r])
    ensures GatesStand(before, after)
  {
  }

  lemma IntakeAppends(db: Db, dto: IntakeService.IntakeDto, writeFails: bool)
    requires db.Valid()
    ensures db.requests <= IntakeService.Intake(db, dto, writeFails).0.requests
  {
    hide Db.Valid, NumberedLines, IntakeService.Resolved, IntakeService.AllOrderable;
  }

  lemma WriteMirrorAppends(db: Db, payload: map<string, J.Json>, refs: OutboundRetry.MirrorRefs, writeFails: bool)
    requires db.Valid()
    ensures db.requests <= OutboundRetry.WriteMirror(db, payload, refs, writeFails).0.requests
  {
    hide Db.Valid, NumberedLines, OutboundRetry.PayloadLines, OutboundRetry.RepairedLines, OutboundRetry.AllKnown;
  }

  lemma FlatPushKeepsGates(w: World, c: Call)
    requires w.db.Valid() && c.PushFlat?
    ensures GatesStand(w.db, Step(w, c).db)
  {
    hide Db.Valid, IntakeService.Intake, LicenceTicket.Raise;
    if LicenceTicket.ActiveOpco(w.db.catalogue, c.flatDto.opcoCode) && c.req.ReqFound? {
      var canonical := LicenceTicket.Canonical(w.db.catalogue, c.flatDto, c.defaultSkuId, c.req.sysId);
      var (db, created) := IntakeService.Intake(w.db, canonical, c.writeFails);
      IntakeAppends(w.db, canonical, c.writeFails);
      if created.Ok? {
        LicenceTicket.RaiseOnlyAnnotates(w.(db := db), created.value, canonical, c.req.openedBySysId, c.submit, c.ticketWriteFails);
      }
    }
  }

  lemma RetryKeepsGates(w: World, c: Call)
    requires w.db.Valid() && c.RetryFailure?
    ensures GatesStand(w.db, Step(w, c).db)
  {
    hide Db.Valid, OutboundRetry.Repair, OutboundRetry.WriteMirror, OutboundRetry.SubmittedRefs, OutboundRetry.RecordedRefs;
    if OutboundRetry.Retryable(w.db, c.failureId) {
      OutboundRetry.RepairTickets(w, c.failureId, c.repair);
      var payload := J.ToBag(w.db.failures[c.failureId].payload);
      if c.repair.submit.Submitted? {
        WriteMirrorAppends(w.db, payload, OutboundRetry.SubmittedRefs(c.repair.submit), c.repair.localWriteFails);
      }
      WriteMirrorAppends(w.db, payload, OutboundRetry.RecordedRefs(w.db.failures[c.failureId].externalRef), c.repair.localWriteFails);
    }
  }

  lemma AssignKeepsGates(w: World, call: A.AssignCall, o: A.Oracle)
    requires w.db.Valid()
    ensures GatesStand(w.db, A.Outcome(w, call, o).0.db)
  {
    hide Db.Valid, A.VerdictOf, A.GateSteps, A.Settle, A.HoldTicket, A.Commit;
    if A.Precheck(w.db, call).None? {
      var l := call.lineId;
      var holding := A.ContextOf(w, call, o).holding;
      AssignReport.HoldTicketOnlyHoldsOrQueues(w.db, l, o);
      AssignReport.CommitWrites(w.db, l, holding, o.now);
      AssignReport.SettleAddsOnlyRecords(w.db, l, holding, o);
      hide A.ContextOf;
    }
  }

  lemma CreatesKeepGates(w: World, c: Call)
    requires w.db.Valid() && (c.FileRequest? || c.PushRequest? || c.CreateOutbound?)
    ensures GatesStand(w.db, Step(w, c).db)
  {
    hide Db.Valid, NumberedLines, IntakeService.Intake, OutboundRequest.Payload, OutboundRequest.TicketRef, OutboundRequest.OrderOf,
         OutboundRequest.MirrorLines, OutboundRequest.AllOrderable;
    if c.PushRequest? {
      IntakeAppends(w.db, c.pushDto, c.writeFails);
    }
    AppendingKeepsGates(w.db, Step(w, c).db);
  }

  lemma LineCallsKeepGates(w: World, c: Call)
    requires w.db.Valid() && (c.AddLine? || c.EditHeader? || c.RemoveLine?)
    ensures GatesStand(w.db, Step(w, c).db)
  {
    hide Db.Valid, R.AddLine, R.RemoveLine, R.UpdateHeader;
    match c
    case AddLine(r, dto, actor) =>
      RequestLaws.AddsExactlyWhen(w.db, r, dto, actor);
      if R.AddLine(w.db, r, dto, actor).1.Ok? {
        RequestLaws.AddedLine(w.db, r, dto, actor);
      }
    case EditHeader(r, patch, actor) => RequestLaws.EditsExactlyWhen(w.db, r, patch, actor);
    case RemoveLine(r, l, actor) => RequestLaws.RemovesExactlyWhen(w.db, r, l, actor);
  }

  lemma AdvanceKeepsGates(w: World, c: Call)
    requires w.db.Valid() && c.AdvanceLine?
    ensures GatesStand(w.db, Step(w, c).db)
  {
    hide Db.Valid, StageService.Advance;
    StageService.AdvanceWrites(w.db, c.lineId, c.toStage, c.actor, c.now);
  }

  lemma QueueCallsKeepGates(w: World, c: Call)
    requires w.db.Valid() && (c.QueueNotification? || c.AbandonFailure? || c.ReopenFailure?)
    ensures GatesStand(w.db, Step(w, c).db)
  {
    hide Db.Valid;
  }

  lemma SyncCallsMoveGates(w: World, c: Call, r: RequestId)
    requires w.db.Valid() && (c.MarkSynced? || c.SweepAzure? || c.SweepServiceNowUser?) && r < |w.db.requests|
    ensures var after := Step(w, c).db; |after.requests| == |w.db.requests| && GatesOf(after.requests[r]) == GatesAfter(w.db, c, r)
  {
    hide Db.Valid, InScope, MayTouch;
    if c.MarkSynced? {
      if c.requestId < |w.db.requests| {
        ScopeMeans(c.actor, w.db.requests[c.requestId].opcoId);
      }
    } else if c.SweepAzure? {
    } else {
    }
  }

  lemma OtherCallsKeepGates(w: World, c: Call)
    requires w.db.Valid() && !c.MarkSynced? && !c.SweepAzure? && !c.SweepServiceNowUser?
    ensures GatesStand(w.db, Step(w, c).db)
  {
    hide Db.Valid, GatesStand, Step;
    match c
    case PushFlat(_, _, _, _, _, _) => FlatPushKeepsGates(w, c);
    case RetryFailure(_, _, _) => RetryKeepsGates(w, c);
    case AssignLine(call, o) =>
      AssignKeepsGates(w, call, o);
      StepIsTheAssign(w, call, o);
    case FileRequest(_, _, _) => CreatesKeepGates(w, c);
    case PushRequest(_, _) => CreatesKeepGates(w, c);
    case CreateOutbound(_, _, _, _) => CreatesKeepGates(w, c);
    case AddLine(_, _, _) => LineCallsKeepGates(w, c);
    case EditHeader(_, _, _) => LineCallsKeepGates(w, c);
    case RemoveLine(_, _, _) => LineCallsKeepGates(w, c);
    case AdvanceLine(_, _, _, _) => AdvanceKeepsGates(w, c);
    case _ => QueueCallsKeepGates(w, c);
  }

  lemma StepIsTheAssign(w: World, call: A.AssignCall, o: A.Oracle)
    requires w.db.Valid()
    ensures Step(w, AssignLine(call, o)) == A.Outcome(w, call, o).0
  {
    hide A.Outcome, Db.Valid;
  }

  /** One call, any call. */
  lemma StepMovesGates(w: World, c: Call, r: RequestId)
    requires w.db.Valid() && r < |w.db.requests|
    ensures var after := Step(w, c).db; r < |after.requests| && GatesOf(after.requests[r]) == GatesAfter(w.db, c, r)
  {
    hide Db.Valid, Step, GatesOf, MayTouch;
    if c.MarkSynced? || c.SweepAzure? || c.SweepServiceNowUser? {
      SyncCallsMoveGates(w, c, r);
    } else {
      OtherCallsKeepGates(w, c);
    }
  }

  // ── over runs ──

  /** Some call of the run opens the Azure gate of `r`, where it stands. */
  ghost predicate RunOpensAzure(w: World, calls: seq<Call>, r: RequestId)
    requires w.db.Valid()
    decreases |calls|
  {
    calls != [] && (OpensAzure(w.db, calls[0], r) || RunOpensAzure(Step(w, calls[0]), calls[1..], r))
  }

  predicate RunOpensServiceNowUser(calls: seq<Call>, r: RequestId) {
    exists i :: 0 <= i < |calls| && OpensServiceNowUser(calls[i], r)
  }

  /** Over every run a gate of a request is open at the end if and only if it was open at the start
      or some call opened it. */
  lemma {:induction false} GatesOpenByTheirCalls(w: World, calls: seq<Call>, r: RequestId)
    requires w.db.Valid() && r < |w.db.requests|
    ensures r < |Run(w, calls).db.requests|
    ensures Run(w, calls).db.requests[r].azureSyncedAt != None <==> w.db.requests[r].azureSyncedAt != None || RunOpensAzure(w, calls, r)
    ensures Run(w, calls).db.requests[r].serviceNowUserSyncedAt != None <==>
      w.db.requests[r].serviceNowUserSyncedAt != None || RunOpensServiceNowUser(calls, r)
    decreases |calls|
  {
    if calls != [] {
      StepMovesGates(w, calls[0], r);
      hide Step, Db.Valid, OpensAzure, OpensServiceNowUser;
      GatesOpenByTheirCalls(Step(w, calls[0]), calls[1..], r);
      FirstCallOrALaterOne(calls, r);
      hide RunOpensServiceNowUser;
    }
  }

  lemma FirstCallOrALaterOne(calls: seq<Call>, r: RequestId)
    requires calls != []
    ensures RunOpensServiceNowUser(calls, r) <==> OpensServiceNowUser(calls[0], r) || RunOpensServiceNowUser(calls[1..], r)
  {
    hide OpensServiceNowUser;
    if i :| 0 <= i < |calls| && OpensServiceNowUser(calls[i], r) {
      assert i > 0 ==> calls[1..][i - 1] == calls[i];
    }
    if i :| 0 <= i < |calls[1..]| && OpensServiceNowUser(calls[1..][i], r) {
      assert OpensServiceNowUser(calls[i + 1], r);
    }
  }

  /** A request pushed without a sync time has no line assigned until some later call opened its
      Azure gate; and whatever was pushed, none until some call opened its ServiceNow user gate. */
  lemma PushedRequestsWaitForTheirGates(w: World, dto: IntakeService.IntakeDto, writeFails: bool, calls: seq<Call>, l: LineId)
    requires Sound(w.db) && w.db.Valid() && IntakeLaws.Creates(w.db, dto, writeFails)
    ensures var r := |w.db.requests|; var pushed := Step(w, PushRequest(dto, writeFails)); var db := Run(pushed, calls).db;
      l in db.lines && db.lines[l].requestId == r && db.lines[l].stage == Assigned ==>
        && (dto.azureSyncedAt == None ==> RunOpensAzure(pushed, calls, r))
        && RunOpensServiceNowUser(calls, r)
  {
    var r := |w.db.requests|;
    var pushed := Step(w, PushRequest(dto, writeFails));
    IntakeLaws.PushStores(w.db, dto, writeFails);
    PlatformHistory.StepKeeps(w, PushRequest(dto, writeFails));
    assert pushed.db == IntakeService.Intake(w.db, dto, writeFails).0;
    hide Step, Run, StatusAgrees, TimelineAgrees, AssignsStand, Db.Valid, IntakeService.Intake, RunOpensAzure, RunOpensServiceNowUser;
    GatesOpenByTheirCalls(pushed, calls, r);
    PlatformHistory.RunKeeps(pushed, calls);
  }
}
