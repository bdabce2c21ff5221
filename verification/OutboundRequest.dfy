/**
  A standalone licence request: ServiceNow first, the local mirror second, and a
  queue row when either half fails (apps/api/src/fulfilment/outbound-request.service.ts).
 */
module OutboundRequest {
  import opened Wrappers
  import opened Json
  import opened Stages
  import opened Database
  import opened Outside
  import FailureQueue
  import IntakeService

  datatype CreateLine = CreateLine(skuId: string, quantity: int)

  datatype CreateDto = CreateDto(
    targetUpn: string,
    targetDisplayName: Option<string>,
    opcoCode: string,
    requesterEmail: Option<string>,
    remark: Option<string>,
    lineItems: seq<CreateLine>
  )

  predicate AllOrderable(catalogue: Catalogue, lines: seq<CreateLine>) {
    forall i :: 0 <= i < |lines| ==> IntakeService.Orderable(catalogue, lines[i].skuId)
  }

  /** A line as the provider is given it. */
  function SubmitLine(catalogue: Catalogue, line: CreateLine): OrderLine
    requires IntakeService.Orderable(catalogue, line.skuId)
  {
    OrderLine(line.skuId, catalogue.skus[catalogue.skuByGuid[line.skuId]].skuPartNumber, line.quantity)
  }

  function SubmitLines(catalogue: Catalogue, lines: seq<CreateLine>): seq<OrderLine>
    requires AllOrderable(catalogue, lines)
  {
    seq(|lines|, i requires 0 <= i < |lines| => SubmitLine(catalogue, lines[i]))
  }

  function OrderOf(catalogue: Catalogue, dto: CreateDto): Order
    requires AllOrderable(catalogue, dto.lineItems)
  {
    Order(dto.targetUpn, dto.opcoCode, dto.requesterEmail, None, dto.remark, SubmitLines(catalogue, dto.lineItems))
  }

  /** A line as the queue is given it. */
  function QueuedLine(line: OrderLine): Json {
    Obj(map["skuId" := Str(line.skuId), "skuPartNumber" := Str(line.skuPartNumber), "quantity" := Num(line.quantity)])
  }

  function QueuedLines(lines: seq<OrderLine>): Json {
    Arr(seq(|lines|, i requires 0 <= i < |lines| => QueuedLine(lines[i])))
  }

  function Payload(catalogue: Catalogue, dto: CreateDto): Json
    requires AllOrderable(catalogue, dto.lineItems)
  {
    Obj(map["targetUpn" := Str(dto.targetUpn), "targetDisplayName" := OfOption(dto.targetDisplayName),
            "opcoCode" := Str(dto.opcoCode), "requesterEmail" := OfOption(dto.requesterEmail),
            "remark" := OfOption(dto.remark), "lineItems" := QueuedLines(SubmitLines(catalogue, dto.lineItems))])
  }

  function SubmittedLineRef(item: SubmittedLine): Json {
    Obj(map["serviceNowSysId" := Str(item.serviceNowSysId), "serviceNowNumber" := OfOption(item.serviceNowNumber)])
  }

  /** The side effects that already happened, as the queue is told about them. */
  function TicketRef(outcome: SubmitOutcome): Json
    requires outcome.Submitted?
  {
    Obj(map["serviceNowSysId" := Str(outcome.serviceNowSysId), "serviceNowNumber" := OfOption(outcome.serviceNowNumber),
            "lineItems" := Arr(seq(|outcome.lineItems|, i requires 0 <= i < |outcome.lineItems| => SubmittedLineRef(outcome.lineItems[i])))])
  }

  /** The request row of the local mirror. */
  function MirrorRow(dto: CreateDto, opcoId: OpcoId, outcome: SubmitOutcome): Request
    requires outcome.Submitted?
  {
    Request(dto.targetUpn, dto.targetDisplayName, opcoId, dto.requesterEmail, dto.remark,
            Open, PlatformCreated, Some(outcome.serviceNowSysId), outcome.serviceNowNumber,
            None, None, None, None, None)
  }

  /** The line rows of the local mirror: line `i` carries item `i`'s RITM. */
  function MirrorLines(catalogue: Catalogue, lines: seq<CreateLine>, outcome: SubmitOutcome): seq<NewLine>
    requires AllOrderable(catalogue, lines) && outcome.Submitted? && |lines| <= |outcome.lineItems|
  {
    seq(|lines|, i requires 0 <= i < |lines| =>
      NewLine(catalogue.skuByGuid[lines[i].skuId], lines[i].quantity, false,
              Some(outcome.lineItems[i].serviceNowSysId), outcome.lineItems[i].serviceNowNumber))
  }

  /** The local write goes through. */
  predicate MirrorWritable(db: Db, dto: CreateDto, outcome: SubmitOutcome, localWriteFails: bool)
    requires outcome.Submitted?
  {
    !localWriteFails && |dto.lineItems| <= |outcome.lineItems| && !db.SysIdTaken(Some(outcome.serviceNowSysId))
  }

  function Create(w: World, dto: CreateDto, actor: Actor, outcome: SubmitOutcome, localWriteFails: bool): (out: (World, Result<RequestId>))
    requires w.db.Valid()
    ensures out.0.db.Valid()
  {
    var db := w.db;
    if dto.opcoCode !in db.catalogue.opcoByCode then (w, Err(NotFound))
    else if !InScope(actor, db.catalogue.opcoByCode[dto.opcoCode]) then (w, Err(Forbidden))
    else if !AllOrderable(db.catalogue, dto.lineItems) then (w, Err(BadRequest))
    else
      var payload := Payload(db.catalogue, dto);
      if outcome.SubmitThrows? then
        (w.(db := FailureQueue.Recorded(db, RequestSubmit, payload, Undefined, None)), Err(Unavailable))
      else if MirrorWritable(db, dto, outcome, localWriteFails) then
        var row := MirrorRow(dto, db.catalogue.opcoByCode[dto.opcoCode], outcome);
        (w.(db := db.CreateRequest(row, MirrorLines(db.catalogue, dto.lineItems, outcome)),
            tickets := w.tickets + [Ticket(outcome.serviceNowSysId, ViaCreate(None), OrderOf(db.catalogue, dto))]),
         Ok(|db.requests|))
      else
        (w.(db := FailureQueue.Recorded(db, RequestMirror, payload, TicketRef(outcome), None),
            tickets := w.tickets + [Ticket(outcome.serviceNowSysId, ViaCreate(Some(|db.failures|)), OrderOf(db.catalogue, dto))]),
         Err(Internal))
  }

  /** A create mirrors the request, or leaves at most a queue row that belongs to none; its
      ticket, if it opened one, is a create's. */
  lemma CreateMirrorsOrQueues(w: World, dto: CreateDto, actor: Actor, outcome: SubmitOutcome, localWriteFails: bool)
    requires w.db.Valid()
    ensures var (after, result) := Create(w, dto, actor, outcome, localWriteFails);
      && (result.Err? ==> after.db == w.db.(failures := after.db.failures))
      && (after.tickets == w.tickets ||
            (|after.tickets| == |w.tickets| + 1 && var t := after.tickets[|w.tickets|]; after.tickets == w.tickets + [t] && t.via.ViaCreate?))
      && (after.db.failures == w.db.failures ||
            (|after.db.failures| == |w.db.failures| + 1 && var row := after.db.failures[|w.db.failures|];
             after.db.failures == w.db.failures + [row] && row.requestId.None?))
  {
    hide Payload, OrderOf, TicketRef, FailureQueue.PickedPayload, FailureQueue.PickedExternalRef, MirrorRow, MirrorLines, Db.Valid;
  }

  class Service {
    const db: Tables
    const vendors: Vendors

    constructor (db: Tables, vendors: Vendors)
      ensures this.db == db && this.vendors == vendors
    {
      this.db := db;
      this.vendors := vendors;
    }

    method CreateRequest(dto: CreateDto, actor: Actor, outcome: SubmitOutcome, localWriteFails: bool) returns (result: Result<RequestId>)
      requires db.State().Valid()
      modifies db, vendors
      ensures (WorldOf(db, vendors), result) == Create(old(WorldOf(db, vendors)), dto, actor, outcome, localWriteFails)
    {
      if dto.opcoCode !in db.catalogue.opcoByCode {
        return Err(NotFound);
      }
      var opcoId := db.catalogue.opcoByCode[dto.opcoCode];
      if !InScope(actor, opcoId) {
        return Err(Forbidden);
      }
      var resolvable, submitLines, resolved := ResolveLines(dto.lineItems);
      if !resolvable {
        return Err(BadRequest);
      }
      var payload := Obj(map[
        "targetUpn" := Str(dto.targetUpn), "targetDisplayName" := OfOption(dto.targetDisplayName),
        "opcoCode" := Str(dto.opcoCode), "requesterEmail" := OfOption(dto.requesterEmail),
        "remark" := OfOption(dto.remark), "lineItems" := QueuedLines(submitLines)]);
      var order := Order(dto.targetUpn, dto.opcoCode, dto.requesterEmail, None, dto.remark, submitLines);
      if outcome.SubmitThrows? {
        FailureQueue.Record(db, RequestSubmit, payload, Undefined, None);
        return Err(Unavailable);
      }
      var orphaned := localWriteFails || |resolved| > |outcome.lineItems| || outcome.serviceNowSysId in db.requestBySysId;
      if orphaned {
        vendors.tickets := vendors.tickets + [Ticket(outcome.serviceNowSysId, ViaCreate(Some(|db.failures|)), order)];
        FailureQueue.Record(db, RequestMirror, payload, TicketRef(outcome), None);
        return Err(Internal);
      }
      vendors.tickets := vendors.tickets + [Ticket(outcome.serviceNowSysId, ViaCreate(None), order)];
      result := Ok(|db.requests|);
      var newLines := seq(|resolved|, i requires 0 <= i < |resolved| =>
        resolved[i].(serviceNowSysId := Some(outcome.lineItems[i].serviceNowSysId), serviceNowNumber := outcome.lineItems[i].serviceNowNumber));
      assert newLines == MirrorLines(db.catalogue, dto.lineItems, outcome);
      IntakeService.StoreMirror(db, MirrorRow(dto, opcoId, outcome), newLines);
    }

    /** Resolve every SKU before anything is submitted. */
    method ResolveLines(lines: seq<CreateLine>) returns (ok: bool, submitLines: seq<OrderLine>, resolved: seq<NewLine>)
      ensures ok == AllOrderable(db.catalogue, lines)
      ensures ok ==> submitLines == SubmitLines(db.catalogue, lines)
      ensures ok ==> |resolved| == |lines| && forall i :: 0 <= i < |lines| ==>
        resolved[i] == NewLine(db.catalogue.skuByGuid[lines[i].skuId], lines[i].quantity, false, None, None)
    {
      submitLines, resolved := [], [];
      for i := 0 to |lines|
        invariant AllOrderable(db.catalogue, lines[..i])
        invariant submitLines == SubmitLines(db.catalogue, lines[..i])
        invariant |resolved| == i && forall j :: 0 <= j < i ==>
          resolved[j] == NewLine(db.catalogue.skuByGuid[lines[j].skuId], lines[j].quantity, false, None, None)
      {
        var line := lines[i];
        if !IntakeService.Orderable(db.catalogue, line.skuId) {
          return false, submitLines, resolved;
        }
        assert lines[..i + 1] == lines[..i] + [line];
        resolved := resolved + [NewLine(db.catalogue.skuByGuid[line.skuId], line.quantity, false, None, None)];
        submitLines := submitLines + [SubmitLine(db.catalogue, line)];
      }
      assert lines[..|lines|] == lines;
      ok := true;
    }
  }
}
