/**
  What a queue row promises about the tickets that name it, and how the calls that
  write the queue keep that promise.
 */
module QueueRows {
  import opened Wrappers
  import opened Json
  import opened Stages
  import opened Database
  import opened Outside
  import opened History
  import Assign
  import AssignReport
  import FailureQueue
  import IntakeService
  import OutboundRequest
  import OutboundRetry
  import LicenceTicket
  import RepairRoundTrip

  /** The queue row a ticket's attempt left behind, or was made from. */
  function RowOf(t: Ticket): Option<FailureId> {
    match t.via
    case ViaCreate(row) => row
    case ViaLicence(_, row) => row
    case ViaRetry(row) => Some(row)
  }

  function TicketsFor(tickets: seq<Ticket>, id: FailureId): nat {
    if tickets == [] then 0
    else TicketsFor(tickets[..|tickets| - 1], id) + (if RowOf(tickets[|tickets| - 1]) == Some(id) then 1 else 0)
  }

  lemma OneMoreTicket(tickets: seq<Ticket>, t: Ticket, id: FailureId)
    ensures TicketsFor(tickets + [t], id) == TicketsFor(tickets, id) + (if RowOf(t) == Some(id) then 1 else 0)
  {
    assert (tickets + [t])[..|tickets|] == tickets;
  }

  lemma {:induction false} UnnamedRowHasNoTicket(tickets: seq<Ticket>, id: FailureId)
    requires forall t :: t in tickets ==> RowOf(t) != Some(id)
    ensures TicketsFor(tickets, id) == 0
  {
    if tickets != [] {
      UnnamedRowHasNoTicket(tickets[..|tickets| - 1], id);
      assert tickets[|tickets| - 1] in tickets;
    }
  }

  /** The OpCo and every SKU a mirror needs can be looked up. */
  predicate Mirrorable(catalogue: Catalogue, payload: Json) {
    && ToText(Get(ToBag(payload), "opcoCode")) in catalogue.opcoByCode
    && OutboundRetry.AllKnown(catalogue, OutboundRetry.PayloadLines(ToBag(payload)))
  }

  function RecordedSysId(row: Failure): string {
    OutboundRetry.RecordedRefs(row.externalRef).serviceNowSysId
  }

  /** A mirror row owes its existence to one ticket, opened before it and never by a retry;
      a submit row's tickets are all retries; the other kinds open none, and are resolved
      only by a replay they allow. A resolved request row's ticket has its local mirror. */
  ghost predicate RowSound(w: World, id: FailureId)
    requires id < |w.db.failures|
  {
    var row := w.db.failures[id];
    match row.kind
    case RequestMirror =>
      && TicketsFor(w.tickets, id) == 1
      && (forall t :: t in w.tickets && RowOf(t) == Some(id) ==> !t.via.ViaRetry? && t.sysId == RecordedSysId(row))
      && (row.status == Resolved ==> RecordedSysId(row) in w.db.requestBySysId)
    case RequestSubmit =>
      && Mirrorable(w.db.catalogue, row.payload)
      && (forall t :: t in w.tickets && RowOf(t) == Some(id) ==> t.via == ViaRetry(id))
      && (row.status == Resolved ==> exists t :: t in w.tickets && t.via == ViaRetry(id) && t.sysId in w.db.requestBySysId)
    case _ => TicketsFor(w.tickets, id) == 0 && (row.status == Resolved ==> OutboundRetry.Replayable(row))
  }

  ghost predicate QueueSound(w: World) {
    && (forall id :: 0 <= id < |w.db.failures| ==> RowSound(w, id))
    && (forall t :: t in w.tickets && RowOf(t).Some? ==> RowOf(t).value < |w.db.failures|)
  }

  /** No row is lost, and no mirrored ticket is forgotten. */
  ghost predicate MirrorsStand(before: Db, after: Db) {
    && after.catalogue == before.catalogue
    && forall s :: s in before.requestBySysId ==> s in after.requestBySysId
  }

  /** A fresh row: open, its first attempt counted, and a mirror row comes with its ticket. */
  ghost predicate FreshRow(w: World, after: World) {
    var n := |w.db.failures|;
    && |after.db.failures| == n + 1
    && var row := after.db.failures[n];
    && after.db.failures == w.db.failures + [row]
    && row.status == QueueOpen && row.attemptCount == 1
    && (row.requestId.Some? ==> row.requestId.value < |after.db.requests|)
    && (row.kind == RequestSubmit ==> Mirrorable(w.db.catalogue, row.payload))
    && (row.kind != RequestMirror ==> after.tickets == w.tickets)
    && (row.kind == RequestMirror ==>
          |after.tickets| == |w.tickets| + 1 && var t := after.tickets[|w.tickets|];
          after.tickets == w.tickets + [t] && RowOf(t) == Some(n) && !t.via.ViaRetry? && t.sysId == RecordedSysId(row))
  }

  /** What every call but a queue decision does: at most one fresh row, or one ticket that
      needed none. */
  ghost predicate QueueGrows(w: World, after: World) {
    || FreshRow(w, after)
    || (after.db.failures == w.db.failures && after.tickets == w.tickets)
    || (after.db.failures == w.db.failures && |after.tickets| == |w.tickets| + 1 &&
        var t := after.tickets[|w.tickets|]; after.tickets == w.tickets + [t] && RowOf(t).None?)
  }

  lemma OldRowStaysSound(w: World, after: World, id: FailureId)
    requires QueueSound(w) && MirrorsStand(w.db, after.db) && QueueGrows(w, after) && id < |w.db.failures|
    ensures RowSound(after, id) && TicketsFor(after.tickets, id) == TicketsFor(w.tickets, id)
    ensures after.db.failures[id] == w.db.failures[id]
  {
    hide Mirrorable, RecordedSysId;
    assert RowSound(w, id);
    if after.tickets != w.tickets {
      var t := after.tickets[|w.tickets|];
      OneMoreTicket(w.tickets, t, id);
      assert RowOf(t) != Some(id);
      assert forall t :: t in w.tickets ==> t in after.tickets;
    }
    hide TicketsFor, FreshRow;
  }

  lemma GrowthKeepsQueueSound(w: World, after: World)
    requires QueueSound(w) && MirrorsStand(w.db, after.db) && QueueGrows(w, after)
    ensures QueueSound(after)
  {
    hide Mirrorable, RecordedSysId;
    forall id | 0 <= id < |after.db.failures| ensures RowSound(after, id) {
      if id < |w.db.failures| {
        OldRowStaysSound(w, after, id);
      } else {
        UnnamedRowHasNoTicket(w.tickets, id);
        if after.tickets != w.tickets {
          OneMoreTicket(w.tickets, after.tickets[|w.tickets|], id);
        }
      }
    }
  }

  // ── the calls that write the queue ──

  lemma OutboundPayloadIsMirrorable(catalogue: Catalogue, dto: OutboundRequest.CreateDto)
    requires OutboundRequest.AllOrderable(catalogue, dto.lineItems) && dto.opcoCode in catalogue.opcoByCode
    ensures Mirrorable(catalogue, FailureQueue.PickedPayload(RequestSubmit, OutboundRequest.Payload(catalogue, dto)))
  {
    hide FailureQueue.PickedPayload;
    var source := OutboundRequest.Payload(catalogue, dto);
    assert FailureQueue.PayloadKeys(RequestSubmit)[2] == "opcoCode";
    RepairRoundTrip.PayloadTextReadsBack(source, RequestSubmit, "opcoCode");
    RepairRoundTrip.PayloadLinesReadBack(source, RequestSubmit);
    var lines := OutboundRetry.PayloadLines(ToBag(source));
    forall i | 0 <= i < |lines|
      ensures lines[i].skuId in catalogue.skuByGuid && catalogue.skuByGuid[lines[i].skuId] in catalogue.skus
    {
      assert IntakeService.Orderable(catalogue, dto.lineItems[i].skuId);
    }
  }

  lemma LicencePayloadIsMirrorable(db: Db, dto: IntakeService.IntakeDto, requesterSysId: string, ids: seq<LineId>)
    requires db.Valid() && (forall l :: l in ids ==> l in db.lines) && dto.opcoCode in db.catalogue.opcoByCode
    ensures Mirrorable(db.catalogue, FailureQueue.PickedPayload(RequestSubmit, LicenceTicket.Payload(db, dto, requesterSysId, ids)))
  {
    hide FailureQueue.PickedPayload;
    var source := LicenceTicket.Payload(db, dto, requesterSysId, ids);
    assert FailureQueue.PayloadKeys(RequestSubmit)[2] == "opcoCode";
    RepairRoundTrip.PayloadTextReadsBack(source, RequestSubmit, "opcoCode");
    RepairRoundTrip.PayloadLinesReadBack(source, RequestSubmit);
    LicenceLinesAreKnown(db, dto, requesterSysId, ids);
    hide OutboundRetry.PayloadLines, OutboundRetry.AllKnown, LicenceTicket.SubmitLine;
  }

  lemma LicenceLinesAreKnown(db: Db, dto: IntakeService.IntakeDto, requesterSysId: string, ids: seq<LineId>)
    requires db.Valid() && (forall l :: l in ids ==> l in db.lines)
    ensures OutboundRetry.AllKnown(db.catalogue, OutboundRetry.PayloadLines(ToBag(LicenceTicket.Payload(db, dto, requesterSysId, ids))))
  {
    var lines := OutboundRetry.PayloadLines(ToBag(LicenceTicket.Payload(db, dto, requesterSysId, ids)));
    forall i | 0 <= i < |lines|
      ensures lines[i].skuId in db.catalogue.skuByGuid && db.catalogue.skuByGuid[lines[i].skuId] in db.catalogue.skus
    {
      assert ids[i] in ids;
      assert lines[i].skuId == db.SkuOf(ids[i]).skuId;
    }
  }

  lemma TicketRefNamesTheTicket(outcome: SubmitOutcome, payload: Json, r: Option<RequestId>)
    requires outcome.Submitted?
    ensures RecordedSysId(FailureQueue.NewFailure(RequestMirror, payload, OutboundRequest.TicketRef(outcome), r)) == outcome.serviceNowSysId
  {
    hide FailureQueue.PickedPayload, FailureQueue.PickedExternalRef, OutboundRetry.RecordedRefs;
    RepairRoundTrip.TicketRefsReadBack(outcome);
  }

  lemma CreateGrowsTheQueue(w: World, dto: OutboundRequest.CreateDto, actor: Actor, outcome: SubmitOutcome, writeFails: bool)
    requires w.db.Valid()
    ensures QueueGrows(w, OutboundRequest.Create(w, dto, actor, outcome, writeFails).0)
  {
    hide Mirrorable, RecordedSysId, OutboundRequest.Payload, OutboundRequest.TicketRef, FailureQueue.PickedPayload,
         FailureQueue.PickedExternalRef, Db.Valid;
    var db := w.db;
    if dto.opcoCode in db.catalogue.opcoByCode && OutboundRequest.AllOrderable(db.catalogue, dto.lineItems) {
      OutboundPayloadIsMirrorable(db.catalogue, dto);
      if outcome.Submitted? {
        TicketRefNamesTheTicket(outcome, OutboundRequest.Payload(db.catalogue, dto), None);
      }
    }
  }

  lemma RaiseGrowsTheQueue(w: World, r: RequestId, dto: IntakeService.IntakeDto, requesterSysId: string, outcome: SubmitOutcome, writeFails: bool)
    requires w.db.Valid() && r < |w.db.requests| && dto.opcoCode in w.db.catalogue.opcoByCode
    ensures QueueGrows(w, LicenceTicket.Raise(w, r, dto, requesterSysId, outcome, writeFails))
  {
    hide Mirrorable, RecordedSysId, LicenceTicket.Payload, OutboundRequest.TicketRef, FailureQueue.PickedPayload,
         FailureQueue.PickedExternalRef, LicenceTicket.LineIds, LicenceTicket.Ticketed, LicenceTicket.HasRitm;
    var ids := LicenceTicket.LineIds(w.db.lines, r, w.db.nextLine);
    LicenceTicket.LineIdsAreTheLines(w.db.lines, r, w.db.nextLine);
    LicencePayloadIsMirrorable(w.db, dto, requesterSysId, ids);
    if outcome.Submitted? {
      TicketRefNamesTheTicket(outcome, LicenceTicket.Payload(w.db, dto, requesterSysId, ids), Some(r));
    }
    hide Db.Valid;
  }

  /** At most one fresh row, and that one for a note or a ticket move. */
  ghost predicate QueuesANote(before: Db, after: Db) {
    after.failures == before.failures || exists row ::
      after.failures == before.failures + [row] && row.kind in {WorkNote, TicketUpdate} && row.status == QueueOpen && row.attemptCount == 1
      && (row.requestId.Some? ==> row.requestId.value < |after.requests|)
  }

  lemma HoldQueuesANote(db: Db, l: LineId, o: Assign.Oracle)
    requires db.Valid() && l in db.lines
    ensures QueuesANote(db, Assign.HoldTicket(db, l, o))
  {
    IdsInRange(db);
    hide FailureQueue.PickedPayload, FailureQueue.PickedExternalRef, Assign.TicketUpdatePayload, Assign.HoldNote, Db.Valid;
  }

  lemma WriteBackQueuesANote(db: Db, l: LineId, o: Assign.Oracle)
    requires db.Valid() && l in db.lines
    ensures QueuesANote(db, Assign.WriteBack(db, l, o).0)
  {
    IdsInRange(db);
    hide FailureQueue.PickedPayload, FailureQueue.PickedExternalRef, Assign.TicketUpdatePayload, Assign.AssignNote, Db.Valid;
  }

  lemma CommitQueuesNothing(db: Db, l: LineId, holding: HoldingStatus, now: Time)
    requires db.Valid() && l in db.lines
    ensures Assign.Commit(db, l, holding, now).failures == db.failures
    ensures |Assign.Commit(db, l, holding, now).requests| == |db.requests|
  {
    AssignReport.CommitWrites(db, l, holding, now);
    hide Assign.Commit, Db.Valid;
  }

  lemma SettleQueuesANote(db: Db, l: LineId, holding: HoldingStatus, o: Assign.Oracle)
    requires db.Valid() && l in db.lines
    ensures QueuesANote(db, Assign.Settle(db, l, holding, o).0)
  {
    CommitQueuesNothing(db, l, holding, o.now);
    var committed := Assign.Commit(db, l, holding, o.now);
    WriteBackQueuesANote(committed, l, o);
    hide Assign.Commit, Assign.WriteBack, Db.Valid;
  }

  lemma AssignGrowsTheQueue(w: World, call: Assign.AssignCall, o: Assign.Oracle)
    requires w.db.Valid()
    ensures QueueGrows(w, Assign.Outcome(w, call, o).0)
  {
    hide Mirrorable, RecordedSysId, Assign.VerdictOf, Assign.GateSteps, Assign.HoldTicket, Assign.Settle, Db.Valid;
    if Assign.Precheck(w.db, call).None? {
      HoldQueuesANote(w.db, call.lineId, o);
      SettleQueuesANote(w.db, call.lineId, Assign.ContextOf(w, call, o).holding, o);
    }
  }
}
