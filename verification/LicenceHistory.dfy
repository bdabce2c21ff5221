/** Licence-ticket accounting over runs of every call. */
module LicenceHistory {
  import opened Wrappers
  import opened Stages
  import opened Database
  import opened Outside
  import opened History
  import opened LicenceAccounting
  import opened Platform
  import QueueRows
  import QueueHistory
  import AssignReport
  import PlatformHistory
  import StageService
  import RequestService
  import SyncGates
  import Assign
  import IntakeService
  import OutboundRequest
  import OutboundRetry
  import LicenceTicket
  import FailureQueue
  import J = Json

  lemma CreationKeepsRitms(db: Db, req: Request, newLines: seq<NewLine>)
    requires db.Valid() && req.opcoId in db.catalogue.opcos && db.ValidLines(newLines) && !db.SysIdTaken(req.serviceNowSysId)
    ensures RitmsStand(db.lines, db.CreateRequest(req, newLines).lines, |db.requests|)
  {
    IdsInRange(db);
    hide Db.Valid;
  }

  lemma PushKeepsRitms(db: Db, dto: IntakeService.IntakeDto, writeFails: bool)
    requires db.Valid()
    ensures var after := IntakeService.Intake(db, dto, writeFails).0;
      RitmsStand(db.lines, after.lines, |db.requests|) && after.failures == db.failures && |after.requests| >= |db.requests|
  {
    hide RitmsStand, Db.CreateRequest;
    assert RitmsStand(db.lines, db.lines, |db.requests|) by { RitmsReflexive(db); }
    var resolved := IntakeService.Resolve(db, dto);
    if resolved.Ok? && !db.SysIdTaken(resolved.value.0.serviceNowSysId) {
      CreationKeepsRitms(db, resolved.value.0, resolved.value.1);
      CreationAddsOne(db, resolved.value.0, resolved.value.1);
    }
  }

  lemma RitmsReflexive(db: Db)
    ensures RitmsStand(db.lines, db.lines, |db.requests|)
  {
  }

  lemma CreationAddsOne(db: Db, req: Request, newLines: seq<NewLine>)
    requires db.Valid() && req.opcoId in db.catalogue.opcos && db.ValidLines(newLines) && !db.SysIdTaken(req.serviceNowSysId)
    ensures var after := db.CreateRequest(req, newLines);
      after.failures == db.failures && |after.requests| == |db.requests| + 1
  {
    hide Db.Valid;
  }

  /** A line written without a new RITM, or removed without one. */
  lemma OneLineKeepsRitms(lines: map<LineId, Line>, l: LineId, line: Line, n: nat)
    requires Truthy(line.serviceNowSysId) ==>
      l in lines && lines[l].requestId == line.requestId && lines[l].serviceNowSysId == line.serviceNowSysId
    requires l in lines ==> !Truthy(lines[l].serviceNowSysId) || Truthy(line.serviceNowSysId)
    ensures RitmsStand(lines, lines[l := line], n)
    ensures l in lines && !Truthy(lines[l].serviceNowSysId) ==> RitmsStand(lines, lines - {l}, n)
  {
  }

  lemma AddKeepsRitms(db: Db, r: nat, dto: RequestService.LineDto, actor: Actor)
    requires db.Valid()
    ensures RitmsStand(db.lines, RequestService.AddLine(db, r, dto, actor).0.lines, |db.requests|)
  {
    IdsInRange(db);
    RitmsReflexive(db);
    hide Db.Valid, StagesOf, StatusOf, RitmsStand;
    OneLineKeepsRitms(db.lines, db.nextLine, MakeLine(r, RequestService.NewLineOf(dto)), |db.requests|);
    AddWritesOneLine(db, r, dto, actor);
  }

  lemma AddWritesOneLine(db: Db, r: nat, dto: RequestService.LineDto, actor: Actor)
    requires db.Valid()
    ensures var (after, result) := RequestService.AddLine(db, r, dto, actor);
      after.lines == if result.Ok? then db.lines[db.nextLine := MakeLine(r, RequestService.NewLineOf(dto))] else db.lines
  {
    hide Db.Valid, StagesOf, StatusOf, RequestService.NewLineOf;
  }

  /** A line with a RITM cannot be removed. */
  lemma RemoveKeepsRitms(db: Db, r: nat, l: LineId, actor: Actor)
    requires db.Valid()
    ensures RitmsStand(db.lines, RequestService.RemoveLine(db, r, l, actor).0.lines, |db.requests|)
  {
    RitmsReflexive(db);
    hide Db.Valid, StagesOf, StatusOf, RitmsStand;
    if RequestService.RemoveLine(db, r, l, actor).1.Ok? {
      OneLineKeepsRitms(db.lines, l, db.lines[l], |db.requests|);
    }
  }

  lemma AdvanceKeepsRitms(db: Db, l: LineId, toStage: Stage, actor: Actor, now: Time)
    requires db.Valid()
    ensures RitmsStand(db.lines, StageService.Advance(db, l, toStage, actor, now).0.lines, |db.requests|)
  {
    RitmsReflexive(db);
    StageService.AdvanceWrites(db, l, toStage, actor, now);
    hide Db.Valid, StageService.Advance, RitmsStand;
    var after := StageService.Advance(db, l, toStage, actor, now).0;
    if StageService.Advance(db, l, toStage, actor, now).1.Ok? {
      OneLineKeepsRitms(db.lines, l, after.lines[l], |db.requests|);
    }
  }

  lemma HoldKeepsRitms(db: Db, l: LineId, o: Assign.Oracle)
    requires db.Valid() && l in db.lines
    ensures RitmsStand(db.lines, Assign.HoldTicket(db, l, o).lines, |db.requests|)
  {
    AssignReport.HoldTicketOnlyHoldsOrQueues(db, l, o);
    hide Db.Valid, Assign.HoldTicket, RitmsStand;
    var after := Assign.HoldTicket(db, l, o);
    var held :| after.lines == db.lines[l := db.lines[l].(ticketHeldAt := held)];
    OneLineKeepsRitms(db.lines, l, db.lines[l].(ticketHeldAt := held), |db.requests|);
  }

  lemma CommitKeepsRitms(db: Db, l: LineId, holding: HoldingStatus, now: Time)
    requires db.Valid() && l in db.lines
    ensures RitmsStand(db.lines, Assign.Commit(db, l, holding, now).lines, |db.requests|)
  {
    AssignReport.CommitWrites(db, l, holding, now);
    hide Db.Valid, Assign.Commit, RitmsStand;
    OneLineKeepsRitms(db.lines, l, db.lines[l].(stage := Assigned, stampedAt := db.lines[l].stampedAt[Assigned := now]), |db.requests|);
  }

  lemma SettleKeepsRitms(db: Db, l: LineId, holding: HoldingStatus, o: Assign.Oracle)
    requires db.Valid() && l in db.lines
    ensures RitmsStand(db.lines, Assign.Settle(db, l, holding, o).0.lines, |db.requests|)
  {
    CommitKeepsRitms(db, l, holding, o.now);
    AssignReport.SettleAddsOnlyRecords(db, l, holding, o);
    hide Db.Valid, RitmsStand, Assign.Commit, Assign.Settle;
  }

  lemma RefusedOrSettledKeepsRitms(w: World, call: Assign.AssignCall, o: Assign.Oracle)
    requires w.db.Valid() && call.lineId in w.db.lines
    ensures RitmsStand(w.db.lines, Assign.HoldTicket(w.db, call.lineId, o).lines, |w.db.requests|)
    ensures RitmsStand(w.db.lines, Assign.Settle(w.db, call.lineId, Assign.ContextOf(w, call, o).holding, o).0.lines, |w.db.requests|)
  {
    hide Assign.HoldTicket, Assign.Settle, RitmsStand, Db.Valid;
    HoldKeepsRitms(w.db, call.lineId, o);
    SettleKeepsRitms(w.db, call.lineId, Assign.ContextOf(w, call, o).holding, o);
  }

  /** Only `Raise` writes a RITM on an existing line; an assign never does. */
  lemma AssignKeepsRitms(w: World, call: Assign.AssignCall, o: Assign.Oracle)
    requires w.db.Valid()
    ensures RitmsStand(w.db.lines, Assign.Outcome(w, call, o).0.db.lines, |w.db.requests|)
  {
    hide RitmsStand, Assign.VerdictOf, Assign.GateSteps, Assign.HoldTicket, Assign.Settle, Db.Valid;
    RitmsReflexive(w.db);
    if call.lineId in w.db.lines {
      RefusedOrSettledKeepsRitms(w, call, o);
    }
  }

  lemma AssignKeepsBooks(w: World, call: Assign.AssignCall, o: Assign.Oracle)
    requires w.db.Valid()
    ensures BooksStand(w, Assign.Outcome(w, call, o).0)
  {
    hide BooksStand, Assign.VerdictOf, Assign.GateSteps, Assign.HoldTicket, Assign.Settle, Db.Valid;
    if Assign.Precheck(w.db, call).None? {
      QueueRows.HoldQueuesANote(w.db, call.lineId, o);
      QueueRows.SettleQueuesANote(w.db, call.lineId, Assign.ContextOf(w, call, o).holding, o);
    }
    NotesKeepBooks(w, Assign.Outcome(w, call, o).0);
  }

  lemma NotesKeepBooks(w: World, after: World)
    requires after.tickets == w.tickets && QueueRows.QueuesANote(w.db, after.db)
    ensures BooksStand(w, after)
  {
    forall r ensures Unwritten(after.db.failures, r) == Unwritten(w.db.failures, r) {
      if after.db.failures != w.db.failures {
        OneMoreRow(w.db.failures, after.db.failures[|w.db.failures|], r);
      }
    }
  }

  lemma OutboundKeepsRitms(w: World, c: Call)
    requires w.db.Valid() && c.CreateOutbound?
    ensures RitmsStand(w.db.lines, Step(w, c).db.lines, |w.db.requests|)
  {
    hide RitmsStand, OutboundRequest.OrderOf, Db.CreateRequest, OutboundRequest.Payload, OutboundRequest.TicketRef, FailureQueue.NewFailure;
    RitmsReflexive(w.db);
    OutboundRequest.CreateMirrorsOrQueues(w, c.createDto, c.actor, c.submit, c.writeFails);
    if OutboundRequest.Create(w, c.createDto, c.actor, c.submit, c.writeFails).1.Ok? {
      var opcoId := w.db.catalogue.opcoByCode[c.createDto.opcoCode];
      CreationKeepsRitms(w.db, OutboundRequest.MirrorRow(c.createDto, opcoId, c.submit),
                         OutboundRequest.MirrorLines(w.db.catalogue, c.createDto.lineItems, c.submit));
    }
  }

  /** A standalone create books nothing against a request. */
  lemma OutboundKeepsBooks(w: World, c: Call)
    requires w.db.Valid() && c.CreateOutbound?
    ensures BooksStand(w, Step(w, c))
  {
    OutboundRequest.CreateMirrorsOrQueues(w, c.createDto, c.actor, c.submit, c.writeFails);
    hide OutboundRequest.Create, Db.Valid;
    UnrelatedKeepsBooks(w, Step(w, c));
  }

  /** A ticket that is no licence ticket, and a row that belongs to no request. */
  lemma UnrelatedKeepsBooks(w: World, after: World)
    requires after.tickets == w.tickets ||
      (|after.tickets| == |w.tickets| + 1 && var t := after.tickets[|w.tickets|]; after.tickets == w.tickets + [t] && !t.via.ViaLicence?)
    requires after.db.failures == w.db.failures ||
      (|after.db.failures| == |w.db.failures| + 1 && var row := after.db.failures[|w.db.failures|];
       after.db.failures == w.db.failures + [row] && row.requestId.None?)
    ensures BooksStand(w, after)
  {
    forall r ensures Raised(after.tickets, r) == Raised(w.tickets, r) && Unwritten(after.db.failures, r) == Unwritten(w.db.failures, r) {
      if after.tickets != w.tickets {
        OneMoreRaised(w.tickets, after.tickets[|w.tickets|], r);
      }
      if after.db.failures != w.db.failures {
        OneMoreRow(w.db.failures, after.db.failures[|w.db.failures|], r);
      }
    }
  }

  lemma WriteMirrorKeepsRitms(db: Db, payload: map<string, J.Json>, refs: OutboundRetry.MirrorRefs, writeFails: bool)
    requires db.Valid()
    ensures RitmsStand(db.lines, OutboundRetry.WriteMirror(db, payload, refs, writeFails).0.lines, |db.requests|)
  {
    hide RitmsStand, Db.CreateRequest, OutboundRetry.PayloadLines;
    RitmsReflexive(db);
    var lines := OutboundRetry.PayloadLines(payload);
    var opcoCode := J.ToText(J.Get(payload, "opcoCode"));
    if opcoCode in db.catalogue.opcoByCode && refs.serviceNowSysId !in db.requestBySysId
       && OutboundRetry.AllKnown(db.catalogue, lines) && !writeFails {
      CreationKeepsRitms(db, OutboundRetry.RepairedRow(payload, db.catalogue.opcoByCode[opcoCode], refs),
                         OutboundRetry.RepairedLines(db.catalogue, lines, refs));
    }
  }

  lemma RepairKeepsRitms(w: World, id: FailureId, o: OutboundRetry.RepairOracle)
    requires w.db.Valid() && id < |w.db.failures|
    ensures RitmsStand(w.db.lines, OutboundRetry.Repair(w, id, o).0.db.lines, |w.db.requests|)
    ensures var after := OutboundRetry.Repair(w, id, o).0;
      after.tickets == w.tickets || (o.submit.Submitted? && |after.tickets| == |w.tickets| + 1 && after.tickets == w.tickets + [after.tickets[|w.tickets|]] && after.tickets[|w.tickets|].via == ViaRetry(id))
  {
    OutboundRetry.RepairTickets(w, id, o);
    hide RitmsStand, OutboundRetry.Repair, OutboundRetry.WriteMirror, OutboundRetry.RecordedRefs, OutboundRetry.SubmittedRefs;
    RitmsReflexive(w.db);
    var payload := J.ToBag(w.db.failures[id].payload);
    if o.submit.Submitted? {
      WriteMirrorKeepsRitms(w.db, payload, OutboundRetry.SubmittedRefs(o.submit), o.localWriteFails);
    }
    WriteMirrorKeepsRitms(w.db, payload, OutboundRetry.RecordedRefs(w.db.failures[id].externalRef), o.localWriteFails);
  }

  lemma OwnTicketsKeepBooks(w: World, after: World)
    requires after.tickets == w.tickets ||
      (|after.tickets| == |w.tickets| + 1 && var t := after.tickets[|w.tickets|]; after.tickets == w.tickets + [t] && !t.via.ViaLicence?)
    requires |after.db.failures| == |w.db.failures|
    requires forall i :: 0 <= i < |w.db.failures| ==>
      after.db.failures[i].kind == w.db.failures[i].kind && after.db.failures[i].requestId == w.db.failures[i].requestId
    ensures BooksStand(w, after)
  {
    forall r ensures Raised(after.tickets, r) == Raised(w.tickets, r) && Unwritten(after.db.failures, r) == Unwritten(w.db.failures, r) {
      if after.tickets != w.tickets {
        OneMoreRaised(w.tickets, after.tickets[|w.tickets|], r);
      }
      UnwrittenFrame(w.db.failures, after.db.failures, r);
    }
  }

  lemma DecisionsKeepBooks(w: World, c: Call)
    requires w.db.Valid() && (c.RetryFailure? || c.AbandonFailure? || c.ReopenFailure?)
    ensures BooksStand(w, Step(w, c)) && RitmsStand(w.db.lines, Step(w, c).db.lines, |w.db.requests|)
  {
    hide RitmsStand, OutboundRetry.Repair, BooksStand;
    RitmsReflexive(w.db);
    DecisionsWriteOneRow(w, c);
    if c.RetryFailure? && OutboundRetry.Retryable(w.db, c.failureId) {
      RepairKeepsRitms(w, c.failureId, c.repair);
    }
    hide Db.Valid;
    OwnTicketsKeepBooks(w, Step(w, c));
  }

  /** A queue decision rewrites one row and keeps what it is about. */
  lemma DecisionsWriteOneRow(w: World, c: Call)
    requires w.db.Valid() && (c.RetryFailure? || c.AbandonFailure? || c.ReopenFailure?)
    ensures var before := w.db.failures; var after := Step(w, c).db.failures;
      |after| == |before| && forall i :: 0 <= i < |before| ==> after[i].kind == before[i].kind && after[i].requestId == before[i].requestId
  {
    hide OutboundRetry.RepairSubmit, OutboundRetry.RepairMirror, Db.Valid;
  }

  /** Every call but a flat push: no licence ticket, no licence row, no RITM on an existing request. */
  lemma OtherCallsKeepBooks(w: World, c: Call)
    requires w.db.Valid() && !c.PushFlat?
    ensures BooksStand(w, Step(w, c)) && RitmsStand(w.db.lines, Step(w, c).db.lines, |w.db.requests|)
  {
    hide RitmsStand, BooksStand, Db.Valid, RequestService.Intake, IntakeService.Intake, OutboundRequest.Create, OutboundRetry.Retry,
         OutboundRetry.Abandon, OutboundRetry.Reopen, RequestService.AddLine, RequestService.UpdateHeader, RequestService.RemoveLine,
         StageService.Advance, SyncGates.OpenAzure, SyncGates.OpenServiceNowUser, Assign.Outcome;
    RitmsReflexive(w.db);
    if QueueHistory.QueueDecision(c) {
      DecisionsKeepBooks(w, c);
    } else if c.CreateOutbound? {
      OutboundKeepsBooks(w, c);
      OutboundKeepsRitms(w, c);
    } else if c.QueueNotification? {
      NotificationKeepsBooks(w, c);
    } else if c.AssignLine? {
      AssignKeepsBooks(w, c.assignCall, c.answers);
      AssignKeepsRitms(w, c.assignCall, c.answers);
    } else {
      QueueHistory.DomainCallsLeaveTheQueue(w, c);
      OwnTicketsKeepBooks(w, Step(w, c));
      DomainCallsKeepRitms(w, c);
    }
  }

  lemma FilingKeepsRitms(db: Db, dto: RequestService.IntakeDto, record: RequestService.RecordLookup, actor: Actor)
    requires db.Valid()
    ensures RitmsStand(db.lines, RequestService.Intake(db, dto, record, actor).0.lines, |db.requests|)
  {
    hide RitmsStand, Db.CreateRequest;
    RitmsReflexive(db);
    if RequestService.Intake(db, dto, record, actor).1.Ok? {
      CreationKeepsRitms(db, RequestService.IntakeRow(dto, record), []);
    }
  }

  lemma NotificationKeepsBooks(w: World, c: Call)
    requires w.db.Valid() && c.QueueNotification?
    ensures BooksStand(w, Step(w, c)) && Step(w, c).db.lines == w.db.lines
  {
    hide FailureQueue.PickedPayload, FailureQueue.PickedExternalRef, Db.Valid;
    forall r ensures Unwritten(Step(w, c).db.failures, r) == Unwritten(w.db.failures, r) {
      OneMoreRow(w.db.failures, Step(w, c).db.failures[|w.db.failures|], r);
    }
  }

  lemma DomainCallsKeepRitms(w: World, c: Call)
    requires w.db.Valid() && !QueueHistory.QueueDecision(c) && !c.PushFlat? && !c.CreateOutbound? && !c.AssignLine? && !c.QueueNotification?
    ensures RitmsStand(w.db.lines, Step(w, c).db.lines, |w.db.requests|)
  {
    hide RitmsStand, RequestService.Intake, IntakeService.Intake, RequestService.AddLine, RequestService.RemoveLine, StageService.Advance,
         RequestService.UpdateHeader, SyncGates.OpenAzure, SyncGates.OpenServiceNowUser, SyncGates.MarkSynced;
    RitmsReflexive(w.db);
    match c {
      case FileRequest(dto, record, actor) => FilingKeepsRitms(w.db, dto, record, actor);
      case PushRequest(dto, writeFails) => PushKeepsRitms(w.db, dto, writeFails);
      case AddLine(r, dto, actor) => AddKeepsRitms(w.db, r, dto, actor);
      case RemoveLine(r, l, actor) => RemoveKeepsRitms(w.db, r, l, actor);
      case AdvanceLine(l, toStage, actor, now) => AdvanceKeepsRitms(w.db, l, toStage, actor, now);
      case _ => HeaderCallsKeepLines(w, c);
    }
  }

  lemma HeaderCallsKeepLines(w: World, c: Call)
    requires w.db.Valid() && (c.EditHeader? || c.MarkSynced? || c.SweepAzure? || c.SweepServiceNowUser?)
    ensures Step(w, c).db.lines == w.db.lines
  {
    hide Db.Valid, RequestService.Patched;
  }

  /** No licence ticket or licence row names a request that does not exist yet. */
  ghost predicate Unborn(w: World) {
    forall r :: |w.db.requests| <= r ==> Raised(w.tickets, r) == 0 && Unwritten(w.db.failures, r) == 0
  }

  /** One flat push, seen from request `r`, old or just created by it. */
  lemma FlatPushAccounts(w: World, c: Call, r: RequestId)
    requires w.db.Valid() && c.PushFlat? && NamesItems(c.submit) && Unborn(w)
    requires r < |w.db.requests| ==> Accounted(w, r)
    ensures Unborn(Step(w, c))
    ensures r < |Step(w, c).db.requests| ==> Accounted(Step(w, c), r)
  {
    hide Db.Valid, IntakeService.Intake, LicenceTicket.Raise, LicenceTicket.HasRitm, NamesItems;
    if LicenceTicket.ActiveOpco(w.db.catalogue, c.flatDto.opcoCode) && c.req.ReqFound? {
      var canonical := LicenceTicket.Canonical(w.db.catalogue, c.flatDto, c.defaultSkuId, c.req.sysId);
      var (db, created) := IntakeService.Intake(w.db, canonical, c.writeFails);
      PushAccounts(w, canonical, c.writeFails, r);
      if created.Ok? {
        var mirrored := w.(db := db);
        RaiseKeepsRequests(mirrored, created.value, canonical, c.req.openedBySysId, c.submit, c.ticketWriteFails);
        if r < |db.requests| {
          RaiseAccounts(mirrored, created.value, canonical, c.req.openedBySysId, c.submit, c.ticketWriteFails, r);
        }
        forall other | |db.requests| <= other
          ensures Raised(Step(w, c).tickets, other) == 0 && Unwritten(Step(w, c).db.failures, other) == 0
        {
          RaiseIsPrivate(mirrored, created.value, canonical, c.req.openedBySysId, c.submit, c.ticketWriteFails, other);
        }
      }
    }
  }

  lemma RaiseKeepsRequests(w: World, r: RequestId, dto: IntakeService.IntakeDto, requesterSysId: string, outcome: SubmitOutcome, writeFails: bool)
    requires w.db.Valid() && r < |w.db.requests|
    ensures |LicenceTicket.Raise(w, r, dto, requesterSysId, outcome, writeFails).db.requests| == |w.db.requests|
  {
    hide Db.Valid, LicenceTicket.Payload, FailureQueue.NewFailure, LicenceTicket.LineIds, LicenceTicket.HasRitm,
         LicenceTicket.Ticketed, OutboundRequest.TicketRef;
  }

  lemma NewRequestHasNoRitm(db: Db, dto: IntakeService.IntakeDto, writeFails: bool, r: RequestId)
    requires db.Valid() && |db.requests| <= r
    requires forall i :: 0 <= i < |dto.lineItems| ==> dto.lineItems[i].ritmSysId.None?
    ensures !LicenceTicket.HasRitm(IntakeService.Intake(db, dto, writeFails).0.lines, r)
  {
    IdsInRange(db);
    var resolved := IntakeService.Resolve(db, dto);
    if resolved.Ok? && !db.SysIdTaken(resolved.value.0.serviceNowSysId) {
      assert forall n :: n in resolved.value.1 ==> n.serviceNowSysId.None?;
      CreatedLinesWithoutRitms(db, resolved.value.0, resolved.value.1, r);
    }
    hide Db.CreateRequest, Db.Valid;
  }

  lemma CreatedLinesWithoutRitms(db: Db, req: Request, newLines: seq<NewLine>, r: RequestId)
    requires db.Valid() && req.opcoId in db.catalogue.opcos && db.ValidLines(newLines) && !db.SysIdTaken(req.serviceNowSysId)
    requires |db.requests| <= r && forall n :: n in newLines ==> n.serviceNowSysId.None?
    ensures !LicenceTicket.HasRitm(db.CreateRequest(req, newLines).lines, r)
  {
    IdsInRange(db);
    hide Db.Valid;
  }

  /** The mirroring half of a flat push: a new request has neither RITM nor ticket. */
  lemma PushAccounts(w: World, dto: IntakeService.IntakeDto, writeFails: bool, r: RequestId)
    requires w.db.Valid() && Unborn(w) && (r < |w.db.requests| ==> Accounted(w, r))
    requires forall i :: 0 <= i < |dto.lineItems| ==> dto.lineItems[i].ritmSysId.None?
    ensures var mirrored := w.(db := IntakeService.Intake(w.db, dto, writeFails).0);
      Unborn(mirrored) && (r < |mirrored.db.requests| ==> Accounted(mirrored, r))
  {
    var db := IntakeService.Intake(w.db, dto, writeFails).0;
    PushKeepsRitms(w.db, dto, writeFails);
    if |w.db.requests| <= r {
      NewRequestHasNoRitm(w.db, dto, writeFails, r);
    }
    hide IntakeService.Intake, RitmsStand, Db.Valid;
    if r < |w.db.requests| {
      StandingRitmsKeepTheGuard(w.db.lines, db.lines, |w.db.requests|, r);
    }
  }

  /** What the provider promises of every flat push's ticket. */
  predicate NamesItemsIn(calls: seq<Call>) {
    forall i :: 0 <= i < |calls| && calls[i].PushFlat? ==> NamesItems(calls[i].submit)
  }

  lemma StepAccounts(w: World, c: Call, r: RequestId)
    requires Sound(w.db) && Unborn(w) && r < |w.db.requests| && Accounted(w, r)
    requires c.PushFlat? ==> NamesItems(c.submit)
    ensures Unborn(Step(w, c)) && r < |Step(w, c).db.requests| && Accounted(Step(w, c), r)
  {
    PlatformHistory.StepKeeps(w, c);
    hide Sound, Db.Valid;
    if c.PushFlat? {
      FlatPushAccounts(w, c, r);
    } else {
      OtherCallsKeepBooks(w, c);
      hide Step, RitmsStand;
      StandingRitmsKeepTheGuard(w.db.lines, Step(w, c).db.lines, |w.db.requests|, r);
    }
  }

  /** Once the books of a request balance they balance after every run: the tickets its
      pushes raised are the one its lines carry, if any does, and the ones queued as unwritten. */
  lemma {:induction false} RunAccounts(w: World, calls: seq<Call>, r: RequestId)
    requires Sound(w.db) && Unborn(w) && r < |w.db.requests| && Accounted(w, r) && NamesItemsIn(calls)
    ensures Accounted(Run(w, calls), r)
    decreases |calls|
  {
    assert w.db.Valid();
    hide Sound, Db.Valid, Step, Accounted, NamesItems;
    if calls != [] {
      PlatformHistory.StepKeeps(w, calls[0]);
      StepAccounts(w, calls[0], r);
      RunAccounts(Step(w, calls[0]), calls[1..], r);
    }
  }

  /** For a request the flat intake creates, the books balance from its first push on. */
  lemma FlatRequestsAlwaysAccounted(w: World, push: Call, calls: seq<Call>)
    requires Sound(w.db) && Unborn(w) && push.PushFlat? && NamesItemsIn([push] + calls)
    requires |w.db.requests| < |Step(w, push).db.requests|
    ensures Accounted(Run(Step(w, push), calls), |w.db.requests|)
  {
    var r := |w.db.requests|;
    assert w.db.Valid();
    NamesItemsFrom(push, calls);
    hide Sound, Db.Valid, Step, Run, Unborn, Accounted, NamesItems, NamesItemsIn;
    PlatformHistory.StepKeeps(w, push);
    FlatPushAccounts(w, push, r);
    RunAccounts(Step(w, push), calls, r);
  }

  lemma NamesItemsFrom(c: Call, calls: seq<Call>)
    requires NamesItemsIn([c] + calls)
    ensures (c.PushFlat? ==> NamesItems(c.submit)) && NamesItemsIn(calls)
  {
    hide NamesItems;
    assert ([c] + calls)[0] == c;
    assert forall i :: 0 <= i < |calls| ==> ([c] + calls)[i + 1] == calls[i];
  }
}
