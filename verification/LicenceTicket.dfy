/**
  The flat intake and the licence ticket it raises once per request
  (apps/api/src/fulfilment/intake-adapter.service.ts).
 */
module LicenceTicket {
  import opened Wrappers
  import opened Json
  import opened Stages
  import opened Database
  import opened Outside
  import FailureQueue
  import IntakeService
  import OutboundRequest

  /** The ids of a request's lines, ascending. */
  function LineIds(lines: map<LineId, Line>, r: RequestId, below: LineId): seq<LineId> {
    if below == 0 then []
    else if below - 1 in lines && lines[below - 1].requestId == r then LineIds(lines, r, below - 1) + [below - 1]
    else LineIds(lines, r, below - 1)
  }

  lemma {:induction false} LineIdsAreTheLines(lines: map<LineId, Line>, r: RequestId, below: LineId)
    ensures forall l :: l in LineIds(lines, r, below) <==> l < below && l in lines && lines[l].requestId == r
    ensures forall i, j :: 0 <= i < j < |LineIds(lines, r, below)| ==> LineIds(lines, r, below)[i] < LineIds(lines, r, below)[j]
  {
    if below > 0 {
      LineIdsAreTheLines(lines, r, below - 1);
      var shorter := LineIds(lines, r, below - 1);
      assert forall i :: 0 <= i < |shorter| ==> shorter[i] in shorter;
    }
  }

  /** Some line of the request already carries a RITM. */
  predicate HasRitm(lines: map<LineId, Line>, r: RequestId) {
    exists l :: l in lines && lines[l].requestId == r && Truthy(lines[l].serviceNowSysId)
  }

  /** The request's own columns travel to the ticket; `remark` is never among them. */
  function Payload(db: Db, dto: IntakeService.IntakeDto, requesterSysId: string, ids: seq<LineId>): Json
    requires db.Valid() && forall l :: l in ids ==> l in db.lines
  {
    Obj(map["targetUpn" := Str(dto.targetUpn), "targetDisplayName" := OfOption(dto.targetDisplayName),
            "opcoCode" := Str(dto.opcoCode), "requesterEmail" := OfOption(dto.requesterEmail),
            "requesterSysId" := Str(requesterSysId),
            "lineItems" := OutboundRequest.QueuedLines(SubmitLines(db, ids))])
  }

  function SubmitLine(db: Db, l: LineId): OrderLine
    requires db.Valid() && l in db.lines
  {
    OrderLine(db.SkuOf(l).skuId, db.SkuOf(l).skuPartNumber, db.lines[l].quantity)
  }

  function SubmitLines(db: Db, ids: seq<LineId>): seq<OrderLine>
    requires db.Valid() && forall l :: l in ids ==> l in db.lines
  {
    seq(|ids|, i requires 0 <= i < |ids| => SubmitLine(db, ids[i]))
  }

  /** The requester goes along by sysId: the REQ's own opener. */
  function OrderOf(db: Db, dto: IntakeService.IntakeDto, requesterSysId: string, ids: seq<LineId>): Order
    requires db.Valid() && forall l :: l in ids ==> l in db.lines
  {
    Order(dto.targetUpn, dto.opcoCode, dto.requesterEmail, Some(requesterSysId), None, SubmitLines(db, ids))
  }

  function WithRitm(line: Line, item: SubmittedLine): Line {
    line.(serviceNowSysId := Some(item.serviceNowSysId), serviceNowNumber := item.serviceNowNumber)
  }

  /** Item `i`'s RITM lands on the `i`-th line; nothing else on any line moves. */
  function Ticketed(lines: map<LineId, Line>, ids: seq<LineId>, items: seq<SubmittedLine>): (after: map<LineId, Line>)
    requires |items| <= |ids| && forall l :: l in ids ==> l in lines
    ensures after.Keys == lines.Keys
    ensures forall l :: l in lines ==> after[l] == lines[l].(serviceNowSysId := after[l].serviceNowSysId, serviceNowNumber := after[l].serviceNowNumber)
    decreases |items|
  {
    if items == [] then lines
    else
      var last := |items| - 1;
      var rest := Ticketed(lines, ids, items[..last]);
      rest[ids[last] := WithRitm(rest[ids[last]], items[last])]
  }

  lemma {:induction false} OtherLinesUntouched(lines: map<LineId, Line>, ids: seq<LineId>, items: seq<SubmittedLine>, l: LineId)
    requires |items| <= |ids| && (forall id :: id in ids ==> id in lines)
    requires l in lines && forall i :: 0 <= i < |items| ==> ids[i] != l
    ensures Ticketed(lines, ids, items)[l] == lines[l]
    decreases |items|
  {
    if items != [] {
      OtherLinesUntouched(lines, ids, items[..|items| - 1], l);
    }
  }

  /** Item `i`'s RITM is on line `ids[i]` afterwards. */
  lemma {:induction false} RitmLandsByIndex(lines: map<LineId, Line>, ids: seq<LineId>, items: seq<SubmittedLine>, i: nat)
    requires |items| <= |ids| && (forall l :: l in ids ==> l in lines) && i < |items|
    requires forall i, j :: 0 <= i < j < |ids| ==> ids[i] != ids[j]
    ensures Ticketed(lines, ids, items)[ids[i]] == WithRitm(lines[ids[i]], items[i])
    decreases |items|
  {
    hide WithRitm;
    var last := |items| - 1;
    if i == last {
      OtherLinesUntouched(lines, ids, items[..last], ids[last]);
    } else {
      RitmLandsByIndex(lines, ids, items[..last], i);
      assert ids[i] != ids[last];
    }
  }

  /** raiseLicenceRequest */
  function Raise(w: World, r: RequestId, dto: IntakeService.IntakeDto, requesterSysId: string, outcome: SubmitOutcome, localWriteFails: bool): (after: World)
    requires w.db.Valid() && r < |w.db.requests|
    ensures after.db.Valid()
  {
    var db := w.db;
    var ids := LineIds(db.lines, r, db.nextLine);
    LineIdsAreTheLines(db.lines, r, db.nextLine);
    if |ids| == 0 || HasRitm(db.lines, r) then w
    else
      var payload := Payload(db, dto, requesterSysId, ids);
      if outcome.SubmitThrows? then w.(db := FailureQueue.Recorded(db, RequestSubmit, payload, Undefined, Some(r)))
      else if localWriteFails || |outcome.lineItems| > |ids| then
        w.(db := FailureQueue.Recorded(db, RequestMirror, payload, OutboundRequest.TicketRef(outcome), Some(r)),
           tickets := w.tickets + [Ticket(outcome.serviceNowSysId, ViaLicence(r, Some(|db.failures|)), OrderOf(db, dto, requesterSysId, ids))])
      else
        var req := db.requests[r].(serviceNowLicenceReqNumber := outcome.serviceNowNumber);
        w.(db := db.SetRequest(r, req).(lines := Ticketed(db.lines, ids, outcome.lineItems)).AddEvent(Note(r)),
           tickets := w.tickets + [Ticket(outcome.serviceNowSysId, ViaLicence(r, None), OrderOf(db, dto, requesterSysId, ids))])
  }

  /** A raise adds RITMs to lines, a number to its request, a note and a queue row, and nothing else. */
  lemma RaiseOnlyAnnotates(w: World, r: RequestId, dto: IntakeService.IntakeDto, requesterSysId: string, outcome: SubmitOutcome, localWriteFails: bool)
    requires w.db.Valid() && r < |w.db.requests|
    ensures var db := w.db; var after := Raise(w, r, dto, requesterSysId, outcome, localWriteFails).db;
      && after == db.(requests := after.requests, lines := after.lines, failures := after.failures, events := after.events)
      && |after.requests| == |db.requests|
      && after.requests == db.requests[r := db.requests[r].(serviceNowLicenceReqNumber := after.requests[r].serviceNowLicenceReqNumber)]
      && (after.events == db.events || after.events == db.events + [Note(r)])
      && after.lines.Keys == db.lines.Keys
      && (forall l :: l in db.lines ==>
            after.lines[l] == db.lines[l].(serviceNowSysId := after.lines[l].serviceNowSysId, serviceNowNumber := after.lines[l].serviceNowNumber))
  {
    hide Payload, OrderOf, FailureQueue.NewFailure, LineIds, HasRitm, Ticketed, OutboundRequest.TicketRef, Db.Valid;
    var db := w.db;
    assert db.requests[r := db.requests[r].(serviceNowLicenceReqNumber := db.requests[r].serviceNowLicenceReqNumber)] == db.requests;
  }

  /** What the adapter resolves before it builds the canonical request. */
  datatype FlatDto = FlatDto(targetUpn: string, targetDisplayName: Option<string>, opcoCode: string,
                             requesterEmail: Option<string>, requestNumber: string)

  /** ServiceNow's answer about the REQ: unreachable, unusable, or its sysId and opener. */
  datatype ReqLookup = ReqThrows | ReqUnusable | ReqFound(sysId: string, openedBySysId: string)

  /** The configured default licence, when it is set and still active. */
  function DefaultLines(catalogue: Catalogue, defaultSkuId: Option<string>): seq<IntakeService.IntakeLine> {
    if Truthy(defaultSkuId) && IntakeService.Orderable(catalogue, defaultSkuId.value)
    then [IntakeService.IntakeLine(defaultSkuId.value, 1, None, None)]
    else []
  }

  function Canonical(catalogue: Catalogue, dto: FlatDto, defaultSkuId: Option<string>, sysId: string): IntakeService.IntakeDto {
    IntakeService.IntakeDto(dto.targetUpn, dto.targetDisplayName, dto.opcoCode, dto.requesterEmail, None,
                            sysId, Some(dto.requestNumber), None, None, DefaultLines(catalogue, defaultSkuId))
  }

  predicate ActiveOpco(catalogue: Catalogue, code: string) {
    code in catalogue.opcoByCode && catalogue.opcoByCode[code] in catalogue.activeOpcos
  }

  /** One push of workflow 1001: mirror the request, then raise its licence ticket. */
  function IntakeFlat(w: World, dto: FlatDto, defaultSkuId: Option<string>, lookup: ReqLookup, requestWriteFails: bool,
                      outcome: SubmitOutcome, ticketWriteFails: bool): (out: (World, Result<RequestId>))
    requires w.db.Valid()
    ensures out.0.db.Valid()
  {
    var catalogue := w.db.catalogue;
    if !ActiveOpco(catalogue, dto.opcoCode) then (w, Err(BadRequest))
    else
      match lookup
      case ReqThrows => (w, Err(Unavailable))
      case ReqUnusable => (w, Err(BadRequest))
      case ReqFound(sysId, openedBy) =>
        var canonical := Canonical(catalogue, dto, defaultSkuId, sysId);
        var (db, created) := IntakeService.Intake(w.db, canonical, requestWriteFails);
        if created.Err? then (w.(db := db), created)
        else (Raise(w.(db := db), created.value, canonical, openedBy, outcome, ticketWriteFails), created)
  }

  class Service {
    const db: Tables
    const vendors: Vendors

    constructor (db: Tables, vendors: Vendors)
      ensures this.db == db && this.vendors == vendors
    {
      this.db := db;
      this.vendors := vendors;
    }

    method IntakeFlatRequest(dto: FlatDto, defaultSkuId: Option<string>, lookup: ReqLookup, requestWriteFails: bool,
                             outcome: SubmitOutcome, ticketWriteFails: bool) returns (result: Result<RequestId>)
      requires db.State().Valid()
      modifies db, vendors
      ensures (WorldOf(db, vendors), result) ==
        IntakeFlat(old(WorldOf(db, vendors)), dto, defaultSkuId, lookup, requestWriteFails, outcome, ticketWriteFails)
    {
      hide Raise, IntakeService.Intake;
      if !ActiveOpco(db.catalogue, dto.opcoCode) {
        return Err(BadRequest);
      }
      if lookup.ReqThrows? {
        return Err(Unavailable);
      }
      if lookup.ReqUnusable? {
        return Err(BadRequest);
      }
      var canonical := Canonical(db.catalogue, dto, defaultSkuId, lookup.sysId);
      result := IntakeService.IntakeRequest(db, canonical, requestWriteFails);
      if result.Err? {
        return;
      }
      RaiseLicenceRequest(result.value, canonical, lookup.openedBySysId, outcome, ticketWriteFails);
    }

    method RaiseLicenceRequest(r: RequestId, dto: IntakeService.IntakeDto, requesterSysId: string, outcome: SubmitOutcome, localWriteFails: bool)
      requires db.State().Valid() && r < |db.requests|
      modifies db, vendors
      ensures WorldOf(db, vendors) == Raise(old(WorldOf(db, vendors)), r, dto, requesterSysId, outcome, localWriteFails)
    {
      LineIdsAreTheLines(db.lines, r, db.nextLine);
      hide Ticketed, OutboundRequest.TicketRef, FailureQueue.NewFailure, SubmitLine, SubmitLines, OrderOf, Payload;
      var ids := FindLines(r);
      hide LineIds;
      if |ids| == 0 {
        return;
      }
      var raised := AnyRitm(ids);
      assert raised == HasRitm(db.lines, r);
      if raised {
        return;
      }
      SubmitLicence(r, ids, dto, requesterSysId, outcome, localWriteFails);
    }

    /** The submission for these lines, and what is recorded of it. */
    method SubmitLicence(r: RequestId, ids: seq<LineId>, dto: IntakeService.IntakeDto, requesterSysId: string, outcome: SubmitOutcome, localWriteFails: bool)
      requires db.State().Valid() && r < |db.requests|
      requires ids == LineIds(db.lines, r, db.nextLine) && ids != [] && !HasRitm(db.lines, r)
      requires forall l :: l in ids ==> l in db.lines
      modifies db, vendors
      ensures WorldOf(db, vendors) == Raise(old(WorldOf(db, vendors)), r, dto, requesterSysId, outcome, localWriteFails)
    {
      hide Ticketed, OutboundRequest.TicketRef, FailureQueue.NewFailure, SubmitLine, SubmitLines, OrderOf, Payload, LineIds, HasRitm;
      var payload := Payload(db.State(), dto, requesterSysId, ids);
      var order := OrderOf(db.State(), dto, requesterSysId, ids);
      if outcome.SubmitThrows? {
        FailureQueue.Record(db, RequestSubmit, payload, Undefined, Some(r));
        return;
      }
      if localWriteFails || |outcome.lineItems| > |ids| {
        vendors.tickets := vendors.tickets + [Ticket(outcome.serviceNowSysId, ViaLicence(r, Some(|db.failures|)), order)];
        FailureQueue.Record(db, RequestMirror, payload, OutboundRequest.TicketRef(outcome), Some(r));
        return;
      }
      vendors.tickets := vendors.tickets + [Ticket(outcome.serviceNowSysId, ViaLicence(r, None), order)];
      StoreTicket(r, ids, outcome);
    }

    /** The RITMs, the licence number and the note. */
    method StoreTicket(r: RequestId, ids: seq<LineId>, outcome: SubmitOutcome)
      requires db.State().Valid() && r < |db.requests| && outcome.Submitted?
      requires |outcome.lineItems| <= |ids| && forall l :: l in ids ==> l in db.lines
      modifies db
      ensures var before := old(db.State());
        db.State() == before.SetRequest(r, before.requests[r].(serviceNowLicenceReqNumber := outcome.serviceNowNumber))
                            .(lines := Ticketed(before.lines, ids, outcome.lineItems)).AddEvent(Note(r))
    {
      WriteRitms(ids, outcome.lineItems);
      db.requests := db.requests[r := db.requests[r].(serviceNowLicenceReqNumber := outcome.serviceNowNumber)];
      db.events := db.events + [Note(r)];
    }

    method FindLines(r: RequestId) returns (ids: seq<LineId>)
      ensures ids == LineIds(db.lines, r, db.nextLine)
    {
      ids := [];
      for l := 0 to db.nextLine
        invariant ids == LineIds(db.lines, r, l)
      {
        if l in db.lines && db.lines[l].requestId == r {
          ids := ids + [l];
        }
      }
    }

    method AnyRitm(ids: seq<LineId>) returns (found: bool)
      requires forall l :: l in ids ==> l in db.lines
      ensures found <==> exists l :: l in ids && Truthy(db.lines[l].serviceNowSysId)
    {
      for i := 0 to |ids|
        invariant forall j :: 0 <= j < i ==> !Truthy(db.lines[ids[j]].serviceNowSysId)
      {
        if Truthy(db.lines[ids[i]].serviceNowSysId) {
          return true;
        }
      }
      return false;
    }

    method WriteRitms(ids: seq<LineId>, items: seq<SubmittedLine>)
      requires db.State().Valid() && |items| <= |ids| && forall l :: l in ids ==> l in db.lines
      modifies db
      ensures db.State() == old(db.State()).(lines := Ticketed(old(db.lines), ids, items))
    {
      for i := 0 to |items|
        invariant db.State() == old(db.State()).(lines := db.lines)
        invariant db.lines == Ticketed(old(db.lines), ids, items[..i])
      {
        assert items[..i + 1][..i] == items[..i];
        db.lines := db.lines[ids[i] := WithRitm(db.lines[ids[i]], items[i])];
      }
      assert items[..|items|] == items;
    }
  }
}
