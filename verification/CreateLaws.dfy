/** What a standalone create asks ServiceNow for, stores and queues, field by field. */
module CreateLaws {
  import opened Wrappers
  import opened Json
  import opened Stages
  import opened Database
  import opened Outside
  import opened Terms
  import IntakeLaws
  import RepairRoundTrip
  import FailureQueue
  import I = IntakeService
  import O = OutboundRequest
  import R = OutboundRetry

  predicate LinesStand(db: Db, lines: seq<O.CreateLine>) {
    forall i :: 0 <= i < |lines| ==> CanOrder(db.catalogue, lines[i].skuId)
  }

  lemma LinesStandMeans(db: Db, lines: seq<O.CreateLine>)
    requires db.Valid()
    ensures O.AllOrderable(db.catalogue, lines) <==> LinesStand(db, lines)
  {
    assert db.catalogue.Valid();
    hide I.Orderable, CanOrder, Db.Valid, Catalogue.Valid;
    forall i | 0 <= i < |lines| ensures I.Orderable(db.catalogue, lines[i].skuId) <==> CanOrder(db.catalogue, lines[i].skuId) {
      OrderableMeans(db.catalogue, lines[i].skuId);
    }
  }

  /** The create reaches ServiceNow: its OpCo is known and the actor's to touch, every SKU can be ordered. */
  predicate Submits(db: Db, dto: O.CreateDto, actor: Actor) {
    && dto.opcoCode in db.catalogue.opcoByCode
    && MayTouch(actor, db.catalogue.opcoByCode[dto.opcoCode])
    && LinesStand(db, dto.lineItems)
  }

  /** The answer can be mirrored: an item per line, and a ticket no request mirrors yet. */
  predicate Mirrors(db: Db, dto: O.CreateDto, outcome: SubmitOutcome, writeFails: bool) {
    && outcome.Submitted? && !writeFails && |dto.lineItems| <= |outcome.lineItems|
    && !IntakeLaws.Mirrored(db, outcome.serviceNowSysId)
  }

  lemma CreatesExactlyWhen(w: World, dto: O.CreateDto, actor: Actor, outcome: SubmitOutcome, writeFails: bool)
    requires w.db.Valid()
    ensures var (after, result) := O.Create(w, dto, actor, outcome, writeFails);
      && result == (if dto.opcoCode !in w.db.catalogue.opcoByCode then Err(NotFound)
                    else if !MayTouch(actor, w.db.catalogue.opcoByCode[dto.opcoCode]) then Err(Forbidden)
                    else if !LinesStand(w.db, dto.lineItems) then Err(BadRequest)
                    else if outcome == SubmitThrows then Err(Unavailable)
                    else if Mirrors(w.db, dto, outcome, writeFails) then Ok(|w.db.requests|)
                    else Err(Internal))
      && (!Submits(w.db, dto, actor) ==> after == w)
  {
    hide Db.Valid, LinesStand, O.AllOrderable, O.Payload, O.TicketRef, O.OrderOf, O.MirrorRow, O.MirrorLines, IntakeLaws.Mirrored, NumberedLines,
         FailureQueue.NewFailure, InScope, MayTouch;
    LinesStandMeans(w.db, dto.lineItems);
    if dto.opcoCode in w.db.catalogue.opcoByCode {
      ScopeMeans(actor, w.db.catalogue.opcoByCode[dto.opcoCode]);
    }
    if outcome.Submitted? {
      IntakeLaws.MirroredMeans(w.db, outcome.serviceNowSysId);
    }
  }

  // ── what ServiceNow is asked for ──

  /** The order asks for the user, the OpCo, the requester by address, the remark and every line. */
  predicate Asks(order: Order, catalogue: Catalogue, dto: O.CreateDto) {
    && order.targetUpn == dto.targetUpn && order.opcoCode == dto.opcoCode
    && order.requesterEmail == dto.requesterEmail && order.requesterSysId == None && order.remark == dto.remark
    && |order.lineItems| == |dto.lineItems|
    && forall i :: 0 <= i < |dto.lineItems| ==> LineAsks(order.lineItems[i], catalogue, dto.lineItems[i])
  }

  predicate LineAsks(line: OrderLine, catalogue: Catalogue, asked: O.CreateLine) {
    && line.skuId == asked.skuId && line.quantity == asked.quantity
    && exists s :: s in catalogue.skus && catalogue.skus[s].skuId == asked.skuId && catalogue.skus[s].skuPartNumber == line.skuPartNumber
  }

  lemma OrderAsks(db: Db, dto: O.CreateDto)
    requires db.Valid() && O.AllOrderable(db.catalogue, dto.lineItems)
    ensures Asks(O.OrderOf(db.catalogue, dto), db.catalogue, dto)
  {
    forall i | 0 <= i < |dto.lineItems| ensures LineAsks(O.SubmitLine(db.catalogue, dto.lineItems[i]), db.catalogue, dto.lineItems[i]) {
      assert I.Orderable(db.catalogue, dto.lineItems[i].skuId);
      assert db.catalogue.skuByGuid[dto.lineItems[i].skuId] in db.catalogue.skus;
    }
    hide LineAsks, Db.Valid;
  }

  /** A create that submits opens one ticket, for that order, unless the submission throws. The
      ticket names the queue row exactly when one was left. */
  lemma CreateOpensOneTicket(w: World, dto: O.CreateDto, actor: Actor, outcome: SubmitOutcome, writeFails: bool)
    requires w.db.Valid()
    ensures var after := O.Create(w, dto, actor, outcome, writeFails).0;
      if Submits(w.db, dto, actor) && outcome.Submitted? then
        && |after.tickets| == |w.tickets| + 1 && after.tickets[..|w.tickets|] == w.tickets
        && var ticket := after.tickets[|w.tickets|];
        && ticket.sysId == outcome.serviceNowSysId
        && ticket.via == ViaCreate(if Mirrors(w.db, dto, outcome, writeFails) then None else Some(|w.db.failures|))
        && Asks(ticket.order, w.db.catalogue, dto)
      else after.tickets == w.tickets
  {
    hide Db.Valid, LinesStand, O.AllOrderable, O.Payload, O.TicketRef, O.OrderOf, O.MirrorRow, O.MirrorLines, IntakeLaws.Mirrored, NumberedLines,
         FailureQueue.NewFailure, InScope, MayTouch, Asks;
    LinesStandMeans(w.db, dto.lineItems);
    if dto.opcoCode in w.db.catalogue.opcoByCode {
      ScopeMeans(actor, w.db.catalogue.opcoByCode[dto.opcoCode]);
    }
    if outcome.Submitted? {
      IntakeLaws.MirroredMeans(w.db, outcome.serviceNowSysId);
    }
    if O.AllOrderable(w.db.catalogue, dto.lineItems) {
      OrderAsks(w.db, dto);
    }
  }

  // ── what the mirror stores ──

  /** Every column of a mirrored request, from the message and the ticket. */
  predicate StoredAs(row: Request, dto: O.CreateDto, opcoId: OpcoId, sysId: string, number: Option<string>) {
    && row.targetUpn == dto.targetUpn && row.targetDisplayName == dto.targetDisplayName
    && row.opcoId == opcoId && row.requesterEmail == dto.requesterEmail && row.rawRequestText == dto.remark
    && row.status == Open && row.origin == PlatformCreated
    && row.serviceNowSysId == Some(sysId) && row.serviceNowNumber == number
    && row.accountCreatedAt == None && row.azureSyncedAt == None
    && row.serviceNowUserSyncedAt == None && row.serviceNowUserSysId == None && row.serviceNowLicenceReqNumber == None
  }

  /** Line `l` stores one line of the message, with the RITM of its own item. */
  predicate LineStoredAs(db: Db, l: LineId, r: RequestId, line: O.CreateLine, item: SubmittedLine) {
    && l in db.lines
    && db.lines[l].requestId == r
    && db.lines[l].skuCatalogId in db.catalogue.skus
    && db.catalogue.skus[db.lines[l].skuCatalogId].skuId == line.skuId
    && db.lines[l].quantity == line.quantity && !db.lines[l].procurementRequired
    && db.lines[l].stage == Requested && db.lines[l].stampedAt == map[] && db.lines[l].ticketHeldAt == None
    && db.lines[l].serviceNowSysId == Some(item.serviceNowSysId)
    && db.lines[l].serviceNowNumber == item.serviceNowNumber
  }

  /** The tables after a mirror was written: that request, its lines in order, and nothing else. */
  ghost predicate MirrorStored(db: Db, after: Db, dto: O.CreateDto, opcoId: OpcoId, outcome: SubmitOutcome)
    requires outcome.Submitted? && |dto.lineItems| <= |outcome.lineItems|
  {
    && |after.requests| == |db.requests| + 1
    && after == db.(requests := db.requests + [after.requests[|db.requests|]], requestBySysId := after.requestBySysId,
                    lines := after.lines, nextLine := db.nextLine + |dto.lineItems|)
    && StoredAs(after.requests[|db.requests|], dto, opcoId, outcome.serviceNowSysId, outcome.serviceNowNumber)
    && (forall l :: l in after.lines <==> l in db.lines || db.nextLine <= l < db.nextLine + |dto.lineItems|)
    && (forall l :: l in db.lines ==> after.lines[l] == db.lines[l])
    && (forall i :: 0 <= i < |dto.lineItems| ==>
          LineStoredAs(after, db.nextLine + i, |db.requests|, dto.lineItems[i], outcome.lineItems[i]))
  }

  /** A nested create of the mirror's rows stores the mirror. */
  lemma MirrorRowsStore(db: Db, dto: O.CreateDto, opcoId: OpcoId, outcome: SubmitOutcome)
    requires db.Valid() && opcoId in db.catalogue.opcos && O.AllOrderable(db.catalogue, dto.lineItems)
    requires outcome.Submitted? && |dto.lineItems| <= |outcome.lineItems| && !db.SysIdTaken(Some(outcome.serviceNowSysId))
    ensures db.ValidLines(O.MirrorLines(db.catalogue, dto.lineItems, outcome))
    ensures MirrorStored(db, db.CreateRequest(O.MirrorRow(dto, opcoId, outcome), O.MirrorLines(db.catalogue, dto.lineItems, outcome)), dto, opcoId, outcome)
  {
    hide Db.Valid, IntakeLaws.RowIs, LineStoredAs, NumberedLines;
    var newLines := O.MirrorLines(db.catalogue, dto.lineItems, outcome);
    assert db.ValidLines(newLines) by {
      forall i | 0 <= i < |newLines| ensures newLines[i].skuCatalogId in db.catalogue.skus {
        assert I.Orderable(db.catalogue, dto.lineItems[i].skuId);
      }
    }
    var after := db.CreateRequest(O.MirrorRow(dto, opcoId, outcome), newLines);
    hide O.MirrorLines, O.AllOrderable;
    IntakeLaws.RowsAfterACreate(db, after.lines, |db.requests|, newLines);
    MirrorLinesStore(db, after, |db.requests|, dto.lineItems, outcome);
  }

  lemma MirrorLinesStore(db: Db, after: Db, r: RequestId, lines: seq<O.CreateLine>, outcome: SubmitOutcome)
    requires db.Valid() && O.AllOrderable(db.catalogue, lines) && after.catalogue == db.catalogue
    requires outcome.Submitted? && |lines| <= |outcome.lineItems|
    requires forall i :: 0 <= i < |lines| ==> IntakeLaws.RowIs(after.lines, db.nextLine + i, r, O.MirrorLines(db.catalogue, lines, outcome)[i])
    ensures forall i :: 0 <= i < |lines| ==> LineStoredAs(after, db.nextLine + i, r, lines[i], outcome.lineItems[i])
  {
    forall i | 0 <= i < |lines| ensures LineStoredAs(after, db.nextLine + i, r, lines[i], outcome.lineItems[i]) {
      assert I.Orderable(db.catalogue, lines[i].skuId);
      assert IntakeLaws.RowIs(after.lines, db.nextLine + i, r, O.MirrorLines(db.catalogue, lines, outcome)[i]);
    }
  }

  /** A create that mirrors stores that request and those lines, and queues nothing. */
  lemma CreateStores(w: World, dto: O.CreateDto, actor: Actor, outcome: SubmitOutcome, writeFails: bool)
    requires w.db.Valid() && Submits(w.db, dto, actor) && Mirrors(w.db, dto, outcome, writeFails)
    ensures MirrorStored(w.db, O.Create(w, dto, actor, outcome, writeFails).0.db, dto, w.db.catalogue.opcoByCode[dto.opcoCode], outcome)
  {
    hide Db.Valid, LinesStand, O.AllOrderable, O.Payload, O.TicketRef, O.OrderOf, O.MirrorRow, O.MirrorLines, IntakeLaws.Mirrored,
         Db.CreateRequest, Db.ValidLines, MirrorStored, InScope, MayTouch;
    LinesStandMeans(w.db, dto.lineItems);
    ScopeMeans(actor, w.db.catalogue.opcoByCode[dto.opcoCode]);
    IntakeLaws.MirroredMeans(w.db, outcome.serviceNowSysId);
    OpcosAreKnown(w.db, dto.opcoCode);
    MirrorRowsStore(w.db, dto, w.db.catalogue.opcoByCode[dto.opcoCode], outcome);
  }

  lemma OpcosAreKnown(db: Db, code: string)
    requires db.Valid() && code in db.catalogue.opcoByCode
    ensures db.catalogue.opcoByCode[code] in db.catalogue.opcos
  {
  }

  // ── what is queued, and how it is made good ──

  /** A queue row of this create: open, tried once, and it names no request. */
  predicate QueuedAs(row: Failure, kind: FailureKind, dto: O.CreateDto) {
    && row.kind == kind && row.status == QueueOpen && row.attemptCount == 1 && row.requestId == None && row.resolvedById == None
    && var bag := ToBag(row.payload);
    && Get(bag, "targetUpn") == Str(dto.targetUpn) && Get(bag, "opcoCode") == Str(dto.opcoCode)
    && Get(bag, "targetDisplayName") == OfOption(dto.targetDisplayName)
    && Get(bag, "requesterEmail") == OfOption(dto.requesterEmail) && Get(bag, "remark") == OfOption(dto.remark)
  }

  function RowOf(catalogue: Catalogue, dto: O.CreateDto, outcome: SubmitOutcome): Failure
    requires O.AllOrderable(catalogue, dto.lineItems)
  {
    if outcome.Submitted? then RepairRoundTrip.OrphanRow(catalogue, dto, outcome)
    else FailureQueue.NewFailure(RequestSubmit, O.Payload(catalogue, dto), Undefined, None)
  }

  lemma RowIsQueuedAs(catalogue: Catalogue, dto: O.CreateDto, outcome: SubmitOutcome)
    requires O.AllOrderable(catalogue, dto.lineItems)
    ensures QueuedAs(RowOf(catalogue, dto, outcome), if outcome.Submitted? then RequestMirror else RequestSubmit, dto)
  {
    hide FailureQueue.PickedPayload, FailureQueue.PickedExternalRef, O.Payload, O.TicketRef;
    RepairRoundTrip.PayloadHeader(catalogue, dto);
    RepairRoundTrip.StoredHeader(O.Payload(catalogue, dto));
    RequestKindsStoreAlike(O.Payload(catalogue, dto));
  }

  lemma RequestKindsStoreAlike(source: Json)
    ensures FailureQueue.PickedPayload(RequestSubmit, source) == FailureQueue.PickedPayload(RequestMirror, source)
  {
    hide FailureQueue.Picked, FailureQueue.PickedItems;
  }

  /** A create that reached ServiceNow and mirrored nothing leaves one queue row: for the submission
      that threw, or for the mirror that could not be written. */
  lemma CreateQueues(w: World, dto: O.CreateDto, actor: Actor, outcome: SubmitOutcome, writeFails: bool)
    requires w.db.Valid() && Submits(w.db, dto, actor) && !Mirrors(w.db, dto, outcome, writeFails)
    ensures O.AllOrderable(w.db.catalogue, dto.lineItems)
    ensures O.Create(w, dto, actor, outcome, writeFails).0.db == w.db.(failures := w.db.failures + [RowOf(w.db.catalogue, dto, outcome)])
    ensures QueuedAs(RowOf(w.db.catalogue, dto, outcome), if outcome.Submitted? then RequestMirror else RequestSubmit, dto)
  {
    hide Db.Valid, LinesStand, O.AllOrderable, O.Payload, O.TicketRef, O.OrderOf, O.MirrorRow, O.MirrorLines, IntakeLaws.Mirrored,
         FailureQueue.NewFailure, InScope, MayTouch, QueuedAs;
    LinesStandMeans(w.db, dto.lineItems);
    ScopeMeans(actor, w.db.catalogue.opcoByCode[dto.opcoCode]);
    if outcome.Submitted? {
      IntakeLaws.MirroredMeans(w.db, outcome.serviceNowSysId);
    }
    RowIsQueuedAs(w.db.catalogue, dto, outcome);
  }

  /** The order a retry places from the row is the order the create placed. */
  lemma RetryAsksTheSame(catalogue: Catalogue, dto: O.CreateDto, outcome: SubmitOutcome)
    requires O.AllOrderable(catalogue, dto.lineItems)
    ensures R.RepairOrder(ToBag(RowOf(catalogue, dto, outcome).payload)) == O.OrderOf(catalogue, dto)
  {
    hide FailureQueue.PickedPayload, FailureQueue.PickedExternalRef, O.TicketRef;
    var source := O.Payload(catalogue, dto);
    RepairRoundTrip.PayloadHeader(catalogue, dto);
    RepairRoundTrip.StoredHeader(source);
    RequestKindsStoreAlike(source);
    RepairRoundTrip.PayloadLinesReadBack(source, RequestMirror);
    assert R.PayloadLines(ToBag(source)) == O.SubmitLines(catalogue, dto.lineItems);
    hide R.PayloadLines, O.SubmitLines, O.Payload;
  }

  /** Read back, the row's message with these references makes the mirror. */
  lemma RowMirrors(db: Db, dto: O.CreateDto, queued: SubmitOutcome, outcome: SubmitOutcome)
    requires db.Valid() && O.AllOrderable(db.catalogue, dto.lineItems) && dto.opcoCode in db.catalogue.opcoByCode
    requires outcome.Submitted? && outcome.Honours(|dto.lineItems|) && !IntakeLaws.Mirrored(db, outcome.serviceNowSysId)
    ensures var (after, result) := R.WriteMirror(db, ToBag(RowOf(db.catalogue, dto, queued).payload), R.SubmittedRefs(outcome), false);
      result == Ok(|db.requests|) && MirrorStored(db, after, dto, db.catalogue.opcoByCode[dto.opcoCode], outcome)
  {
    hide FailureQueue.PickedPayload, FailureQueue.PickedExternalRef, O.Payload, O.TicketRef, R.PayloadLines, MirrorStored,
         Db.CreateRequest, IntakeLaws.Mirrored, R.RepairedRow, R.RepairedLines, R.AllKnown, O.MirrorRow, O.MirrorLines, O.AllOrderable;
    IntakeLaws.MirroredMeans(db, outcome.serviceNowSysId);
    OpcosAreKnown(db, dto.opcoCode);
    var opcoId := db.catalogue.opcoByCode[dto.opcoCode];
    RequestKindsStoreAlike(O.Payload(db.catalogue, dto));
    RepairRoundTrip.OrphanRowRepairsToTheMirrorRow(db.catalogue, dto, outcome, opcoId);
    RepairRoundTrip.OrphanRowRepairsToTheMirrorLines(db.catalogue, db.catalogue, dto, outcome);
    hide Db.Valid;
    MirrorRowsStore(db, dto, opcoId, outcome);
    assert RowOf(db.catalogue, dto, queued).payload == RepairRoundTrip.OrphanRow(db.catalogue, dto, outcome).payload;
    assert R.SubmittedRefs(outcome).serviceNowSysId == outcome.serviceNowSysId;
  }
}
