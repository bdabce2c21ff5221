/** What a flat push stores and what its licence ticket asks for, writes and queues, field by field. */
module RaiseLaws {
  import opened Wrappers
  import opened Json
  import opened Stages
  import opened Database
  import opened Outside
  import opened Terms
  import IntakeLaws
  import RepairRoundTrip
  import CreateLaws
  import FailureQueue
  import I = IntakeService
  import O = OutboundRequest
  import R = OutboundRetry
  import L = LicenceTicket


  /** The request has lines, and none of them has a RITM. */
  predicate Awaits(db: Db, r: RequestId) {
    && (exists l :: l in db.lines && db.lines[l].requestId == r)
    && (forall l :: l in db.lines && db.lines[l].requestId == r ==> !Filled(db.lines[l].serviceNowSysId))
  }

  /** The lines of a request, in ascending order. */
  ghost predicate AreTheLines(db: Db, r: RequestId, ids: seq<LineId>) {
    && (forall l :: l in ids <==> l in db.lines && db.lines[l].requestId == r)
    && (forall i, j :: 0 <= i < j < |ids| ==> ids[i] < ids[j])
  }

  function LinesOf(db: Db, r: RequestId): seq<LineId> {
    L.LineIds(db.lines, r, db.nextLine)
  }

  lemma LinesOfAreTheLines(db: Db, r: RequestId)
    requires db.Valid()
    ensures AreTheLines(db, r, LinesOf(db, r))
    ensures |LinesOf(db, r)| == 0 || L.HasRitm(db.lines, r) <==> !Awaits(db, r)
  {
    L.LineIdsAreTheLines(db.lines, r, db.nextLine);
    var ids := LinesOf(db, r);
    assert |ids| > 0 ==> ids[0] in ids;
    hide L.LineIds;
  }

  /** The order is for the user and the OpCo, in the name of the REQ's opener, with the lines in order. */
  predicate Asks(order: Order, db: Db, dto: I.IntakeDto, requesterSysId: string, ids: seq<LineId>) {
    && order.targetUpn == dto.targetUpn && order.opcoCode == dto.opcoCode
    && order.requesterEmail == dto.requesterEmail && order.requesterSysId == Some(requesterSysId) && order.remark == None
    && |order.lineItems| == |ids|
    && forall i :: 0 <= i < |ids| ==> LineAsks(order.lineItems[i], db, ids[i])
  }

  predicate LineAsks(line: OrderLine, db: Db, l: LineId) {
    && l in db.lines && db.lines[l].skuCatalogId in db.catalogue.skus
    && line.skuId == db.catalogue.skus[db.lines[l].skuCatalogId].skuId
    && line.skuPartNumber == db.catalogue.skus[db.lines[l].skuCatalogId].skuPartNumber
    && line.quantity == db.lines[l].quantity
  }

  lemma OrderAsks(db: Db, dto: I.IntakeDto, requesterSysId: string, ids: seq<LineId>)
    requires db.Valid() && forall l :: l in ids ==> l in db.lines
    ensures Asks(L.OrderOf(db, dto, requesterSysId, ids), db, dto, requesterSysId, ids)
  {
    forall i | 0 <= i < |ids| ensures LineAsks(L.OrderOf(db, dto, requesterSysId, ids).lineItems[i], db, ids[i]) {
      assert ids[i] in ids;
    }
  }

  /** The row of a raise that failed: open, tried once, under its request, with the message. */
  predicate QueuedAs(row: Failure, kind: FailureKind, r: RequestId, dto: I.IntakeDto) {
    && row.kind == kind && row.status == QueueOpen && row.attemptCount == 1 && row.requestId == Some(r) && row.resolvedById == None
    && var bag := ToBag(row.payload);
    && Get(bag, "targetUpn") == Str(dto.targetUpn) && Get(bag, "opcoCode") == Str(dto.opcoCode)
    && Get(bag, "targetDisplayName") == OfOption(dto.targetDisplayName)
    && Get(bag, "requesterEmail") == OfOption(dto.requesterEmail) && Get(bag, "remark") == Undefined
  }

  function RowOf(db: Db, r: RequestId, dto: I.IntakeDto, requesterSysId: string, ids: seq<LineId>, outcome: SubmitOutcome): Failure
    requires db.Valid() && forall l :: l in ids ==> l in db.lines
  {
    if outcome.Submitted? then FailureQueue.NewFailure(RequestMirror, L.Payload(db, dto, requesterSysId, ids), O.TicketRef(outcome), Some(r))
    else FailureQueue.NewFailure(RequestSubmit, L.Payload(db, dto, requesterSysId, ids), Undefined, Some(r))
  }

  lemma PayloadHeader(db: Db, dto: I.IntakeDto, requesterSysId: string, ids: seq<LineId>)
    requires db.Valid() && forall l :: l in ids ==> l in db.lines
    ensures var bag := ToBag(L.Payload(db, dto, requesterSysId, ids));
      && Get(bag, "targetUpn") == Str(dto.targetUpn) && Get(bag, "targetDisplayName") == OfOption(dto.targetDisplayName)
      && Get(bag, "opcoCode") == Str(dto.opcoCode) && Get(bag, "requesterEmail") == OfOption(dto.requesterEmail)
      && Get(bag, "remark") == Undefined
  {
    hide L.SubmitLines, OfOption, Db.Valid;
    assert |"remark"| == 6 && |"requesterSysId"| == 14;
  }

  lemma RowIsQueuedAs(db: Db, r: RequestId, dto: I.IntakeDto, requesterSysId: string, ids: seq<LineId>, outcome: SubmitOutcome)
    requires db.Valid() && forall l :: l in ids ==> l in db.lines
    ensures QueuedAs(RowOf(db, r, dto, requesterSysId, ids, outcome), if outcome.Submitted? then RequestMirror else RequestSubmit, r, dto)
  {
    hide FailureQueue.PickedPayload, FailureQueue.PickedExternalRef, L.Payload, O.TicketRef;
    var source := L.Payload(db, dto, requesterSysId, ids);
    PayloadHeader(db, dto, requesterSysId, ids);
    RepairRoundTrip.StoredHeader(source);
    CreateLaws.RequestKindsStoreAlike(source);
  }

  /** The RITMs land by index, each on its own line, and no other column of any line moves. */
  ghost predicate RitmsLanded(before: map<LineId, Line>, after: map<LineId, Line>, ids: seq<LineId>, items: seq<SubmittedLine>) {
    && after.Keys == before.Keys
    && (forall l :: l in before && (forall i :: 0 <= i < |items| && i < |ids| ==> ids[i] != l) ==> after[l] == before[l])
    && (forall i :: 0 <= i < |items| && i < |ids| ==> RitmLanded(before, after, ids[i], items[i]))
  }

  predicate RitmLanded(before: map<LineId, Line>, after: map<LineId, Line>, l: LineId, item: SubmittedLine) {
    && l in before && l in after
    && after[l] == before[l].(serviceNowSysId := Some(item.serviceNowSysId), serviceNowNumber := item.serviceNowNumber)
  }

  lemma RitmsLand(db: Db, r: RequestId, ids: seq<LineId>, items: seq<SubmittedLine>)
    requires AreTheLines(db, r, ids) && |items| <= |ids|
    ensures forall l :: l in ids ==> l in db.lines
    ensures RitmsLanded(db.lines, L.Ticketed(db.lines, ids, items), ids, items)
  {
    hide L.Ticketed;
    var after := L.Ticketed(db.lines, ids, items);
    forall l | l in db.lines && (forall i :: 0 <= i < |items| && i < |ids| ==> ids[i] != l) ensures after[l] == db.lines[l] {
      L.OtherLinesUntouched(db.lines, ids, items, l);
    }
    forall i | 0 <= i < |items| && i < |ids| ensures RitmLanded(db.lines, after, ids[i], items[i]) {
      L.RitmLandsByIndex(db.lines, ids, items, i);
      assert ids[i] in ids;
    }
  }

  /** What one raise does, case by case. A request that does not await a ticket is left alone. One
      that does is submitted: refused, a submit row; accepted and stored, its RITMs, its licence
      number and a note; accepted and not stored, a mirror row. */
  lemma RaiseDoes(w: World, r: RequestId, dto: I.IntakeDto, requesterSysId: string, outcome: SubmitOutcome, writeFails: bool)
    requires w.db.Valid() && r < |w.db.requests|
    ensures var after := L.Raise(w, r, dto, requesterSysId, outcome, writeFails); var ids := LinesOf(w.db, r);
      if !Awaits(w.db, r) then after == w
      else
        && AreTheLines(w.db, r, ids)
        && if outcome.SubmitThrows? then after == w.(db := w.db.(failures := w.db.failures + [RowOf(w.db, r, dto, requesterSysId, ids, outcome)]))
           else Opened(w, after, r, dto, requesterSysId, outcome, writeFails || |outcome.lineItems| > |ids|)
  {
    hide Db.Valid, L.Payload, L.OrderOf, O.TicketRef, FailureQueue.NewFailure, L.LineIds, L.HasRitm, L.Ticketed, Asks, Awaits, RitmsLanded;
    LinesOfAreTheLines(w.db, r);
    var ids := LinesOf(w.db, r);
    OrderAsks(w.db, dto, requesterSysId, ids);
    if outcome.Submitted? && |outcome.lineItems| <= |ids| {
      RitmsLand(w.db, r, ids, outcome.lineItems);
    }
  }

  /** A ticket was opened for the request's lines, and recorded on them or, lost, on a queue row. */
  ghost predicate Opened(w: World, after: World, r: RequestId, dto: I.IntakeDto, requesterSysId: string, outcome: SubmitOutcome, lost: bool)
    requires w.db.Valid() && outcome.Submitted?
  {
    var ids := LinesOf(w.db, r);
    && r < |w.db.requests| && |after.tickets| == |w.tickets| + 1
    && var ticket := after.tickets[|w.tickets|];
    && ticket.sysId == outcome.serviceNowSysId && ticket.via == ViaLicence(r, if lost then Some(|w.db.failures|) else None)
    && Asks(ticket.order, w.db, dto, requesterSysId, ids)
    && after == w.(db := after.db, tickets := w.tickets + [ticket])
    && if lost then
         && AreTheLines(w.db, r, ids)
         && after.db == w.db.(failures := w.db.failures + [RowOf(w.db, r, dto, requesterSysId, ids, outcome)])
       else
         && after.db == w.db.(requests := w.db.requests[r := w.db.requests[r].(serviceNowLicenceReqNumber := outcome.serviceNowNumber)],
                              lines := after.db.lines, events := w.db.events + [Note(r)])
         && RitmsLanded(w.db.lines, after.db.lines, ids, outcome.lineItems)
  }

  /** The repair of a raise whose submission failed asks for the same licences for the same user, but
      no longer in the opener's name: the sysId is not among the fields the queue may store. */
  lemma RetryForgetsTheRequester(db: Db, r: RequestId, dto: I.IntakeDto, requesterSysId: string, ids: seq<LineId>)
    requires db.Valid() && forall l :: l in ids ==> l in db.lines
    ensures R.RepairOrder(ToBag(RowOf(db, r, dto, requesterSysId, ids, SubmitThrows).payload))
         == L.OrderOf(db, dto, requesterSysId, ids).(requesterSysId := None)
    ensures R.RepairOrder(ToBag(RowOf(db, r, dto, requesterSysId, ids, SubmitThrows).payload)) != L.OrderOf(db, dto, requesterSysId, ids)
  {
    hide FailureQueue.PickedPayload, FailureQueue.PickedExternalRef, L.Payload, L.SubmitLines, R.PayloadLines, Db.Valid;
    var source := L.Payload(db, dto, requesterSysId, ids);
    PayloadHeader(db, dto, requesterSysId, ids);
    RepairRoundTrip.StoredHeader(source);
    CreateLaws.RequestKindsStoreAlike(source);
    RepairRoundTrip.PayloadLinesReadBack(source, RequestMirror);
    LinesReadBack(db, dto, requesterSysId, ids);
    hide R.PayloadLines, L.SubmitLines, L.Payload;
  }

  lemma LinesReadBack(db: Db, dto: I.IntakeDto, requesterSysId: string, ids: seq<LineId>)
    requires db.Valid() && forall l :: l in ids ==> l in db.lines
    ensures R.PayloadLines(ToBag(L.Payload(db, dto, requesterSysId, ids))) == L.SubmitLines(db, ids)
  {
    hide L.SubmitLine, Db.Valid;
    assert Get(ToBag(L.Payload(db, dto, requesterSysId, ids)), "lineItems") == O.QueuedLines(L.SubmitLines(db, ids));
  }

  // ── the flat push itself ──

  /** The default licence, when one is configured and can be ordered. */
  predicate HasDefault(catalogue: Catalogue, sku: Option<string>) {
    Filled(sku) && CanOrder(catalogue, sku.value)
  }

  /** The message a flat push becomes: no text, no times, the REQ's own sysId and number, and the
      default licence once or no line at all. */
  lemma FlatPushBecomes(catalogue: Catalogue, dto: L.FlatDto, sku: Option<string>, sysId: string)
    requires catalogue.Valid()
    ensures var canonical := L.Canonical(catalogue, dto, sku, sysId);
      && canonical.targetUpn == dto.targetUpn && canonical.targetDisplayName == dto.targetDisplayName
      && canonical.opcoCode == dto.opcoCode && canonical.requesterEmail == dto.requesterEmail
      && canonical.rawRequestText == None && canonical.accountCreatedAt == None && canonical.azureSyncedAt == None
      && canonical.serviceNowSysId == sysId && canonical.serviceNowNumber == Some(dto.requestNumber)
      && canonical.lineItems == (if HasDefault(catalogue, sku) then [I.IntakeLine(sku.value, 1, None, None)] else [])
  {
    if sku.Some? {
      OrderableMeans(catalogue, sku.value);
    }
    hide CanOrder, I.Orderable, Catalogue.Valid;
  }

  /** A flat push is refused for an OpCo that is unknown or switched off, and for a REQ that cannot be
      looked up; otherwise its message is pushed, and a request that came of it is raised. */
  lemma FlatPushDoes(w: World, dto: L.FlatDto, sku: Option<string>, lookup: L.ReqLookup, writeFails: bool, outcome: SubmitOutcome, ticketFails: bool)
    requires w.db.Valid()
    ensures var (after, result) := L.IntakeFlat(w, dto, sku, lookup, writeFails, outcome, ticketFails);
      if dto.opcoCode !in w.db.catalogue.opcoByCode || w.db.catalogue.opcoByCode[dto.opcoCode] !in w.db.catalogue.activeOpcos
         || lookup == L.ReqUnusable then (after, result) == (w, Err(BadRequest))
      else if lookup == L.ReqThrows then (after, result) == (w, Err(Unavailable))
      else
        var canonical := L.Canonical(w.db.catalogue, dto, sku, lookup.sysId);
        var (db, pushed) := I.Intake(w.db, canonical, writeFails);
        && result == pushed
        && after == (if pushed.Ok? then L.Raise(w.(db := db), pushed.value, canonical, lookup.openedBySysId, outcome, ticketFails) else w.(db := db))
  {
    hide Db.Valid, L.Raise, I.Intake, L.Canonical;
  }
}
