/** Where the once-only guard and the repair queue do not meet. */
module LicenceRepair {
  import opened Wrappers
  import opened Json
  import opened Stages
  import opened Database
  import opened Outside
  import opened LicenceTicket
  import opened LicenceAccounting
  import LicenceHistory
  import QueueRows
  import QueueDecisions
  import FailureQueue
  import IntakeService
  import OutboundRequest
  import OutboundRetry
  import RepairRoundTrip

  /** The queue row a raise leaves behind when only its local write failed. */
  function LostRow(db: Db, r: RequestId, dto: IntakeService.IntakeDto, requesterSysId: string, outcome: SubmitOutcome): Failure
    requires db.Valid() && r < |db.requests| && outcome.Submitted?
  {
    LineIdsAreTheLines(db.lines, r, db.nextLine);
    FailureQueue.NewFailure(RequestMirror, Payload(db, dto, requesterSysId, LineIds(db.lines, r, db.nextLine)),
                            OutboundRequest.TicketRef(outcome), Some(r))
  }

  lemma LostRowIsMirrorable(db: Db, r: RequestId, dto: IntakeService.IntakeDto, requesterSysId: string, outcome: SubmitOutcome)
    requires db.Valid() && r < |db.requests| && outcome.Submitted? && dto.opcoCode in db.catalogue.opcoByCode
    ensures QueueRows.Mirrorable(db.catalogue, LostRow(db, r, dto, requesterSysId, outcome).payload)
    ensures QueueRows.RecordedSysId(LostRow(db, r, dto, requesterSysId, outcome)) == outcome.serviceNowSysId
  {
    LineIdsAreTheLines(db.lines, r, db.nextLine);
    var ids := LineIds(db.lines, r, db.nextLine);
    hide Payload, OrderOf, OutboundRequest.TicketRef, FailureQueue.Picked, FailureQueue.PickedExternalRef, QueueRows.Mirrorable, OutboundRetry.RecordedRefs;
    var payload := Payload(db, dto, requesterSysId, ids);
    QueueRows.LicencePayloadIsMirrorable(db, dto, requesterSysId, ids);
    QueueRows.TicketRefNamesTheTicket(outcome, payload, Some(r));
    assert FailureQueue.PayloadKeys(RequestMirror) == FailureQueue.PayloadKeys(RequestSubmit);
  }

  lemma LostRaise(w: World, r: RequestId, dto: IntakeService.IntakeDto, requesterSysId: string, outcome: SubmitOutcome)
    requires w.db.Valid() && r < |w.db.requests| && outcome.Submitted?
    requires LineIds(w.db.lines, r, w.db.nextLine) != [] && !HasRitm(w.db.lines, r)
    ensures Raise(w, r, dto, requesterSysId, outcome, true).db ==
      w.db.(failures := w.db.failures + [LostRow(w.db, r, dto, requesterSysId, outcome)])
  {
    hide Payload, OrderOf, OutboundRequest.TicketRef, FailureQueue.NewFailure, LineIds, HasRitm;
  }

  /** Repairing the row of a raise whose local write failed does not finish that request: it
      stores a second local request for the same ticket and leaves the pushed one without a
      RITM, so the next push of it opens a second ticket. */
  lemma RepairDoesNotCloseTheGuard(w: World, r: RequestId, dto: IntakeService.IntakeDto, requesterSysId: string, outcome: SubmitOutcome)
    requires w.db.Valid() && r < |w.db.requests| && dto.opcoCode in w.db.catalogue.opcoByCode
    requires LineIds(w.db.lines, r, w.db.nextLine) != [] && !HasRitm(w.db.lines, r)
    requires outcome.Submitted? && outcome.serviceNowSysId != "" && !w.db.SysIdTaken(Some(outcome.serviceNowSysId))
    ensures var lost := Raise(w, r, dto, requesterSysId, outcome, true);
      var (repaired, result) := OutboundRetry.RepairMirror(lost.db, |w.db.failures|, false);
      && result.Ok? && result.value == |w.db.requests| && result.value != r
      && outcome.serviceNowSysId in repaired.requestBySysId
      && !HasRitm(repaired.lines, r)
  {
    LostRaise(w, r, dto, requesterSysId, outcome);
    LostRowIsMirrorable(w.db, r, dto, requesterSysId, outcome);
    var row := LostRow(w.db, r, dto, requesterSysId, outcome);
    var lost := Raise(w, r, dto, requesterSysId, outcome, true);
    hide Raise, LostRow, OutboundRetry.RecordedRefs, QueueRows.Mirrorable, LineIds, HasRitm;
    var refs := OutboundRetry.RecordedRefs(row.externalRef);
    QueueDecisions.MirrorFailsExactlyWhen(lost.db, row.payload, refs, false);
    LicenceHistory.WriteMirrorKeepsRitms(lost.db, ToBag(row.payload), refs, false);
    StandingRitmsKeepTheGuard(lost.db.lines, OutboundRetry.WriteMirror(lost.db, ToBag(row.payload), refs, false).0.lines, |w.db.requests|, r);
    hide RitmsStand, Db.Valid;
    assert OutboundRetry.RepairMirror(lost.db, |w.db.failures|, false) == OutboundRetry.WriteMirror(lost.db, ToBag(row.payload), refs, false);
  }

  /** An unguarded push submits again: a raise opens a ticket exactly when its request has
      lines, none of them carries a RITM, and the submission goes through. */
  lemma RaiseTicketsExactlyWhen(w: World, r: RequestId, dto: IntakeService.IntakeDto, requesterSysId: string, outcome: SubmitOutcome, writeFails: bool)
    requires w.db.Valid() && r < |w.db.requests|
    ensures Raised(Raise(w, r, dto, requesterSysId, outcome, writeFails).tickets, r) == Raised(w.tickets, r) +
      (if (exists l :: l in w.db.lines && w.db.lines[l].requestId == r) && !HasRitm(w.db.lines, r) && outcome.Submitted? then 1 else 0)
  {
    hide Payload, OrderOf, OutboundRequest.TicketRef, FailureQueue.NewFailure, LineIds, Ticketed;
    var ids := LineIds(w.db.lines, r, w.db.nextLine);
    LineIdsAreTheLines(w.db.lines, r, w.db.nextLine);
    assert |ids| == 0 <==> !exists l :: l in w.db.lines && w.db.lines[l].requestId == r by {
      assert |ids| > 0 ==> ids[0] in ids;
    }
    var after := Raise(w, r, dto, requesterSysId, outcome, writeFails);
    if after.tickets != w.tickets {
      OneMoreRaised(w.tickets, after.tickets[|w.tickets|], r);
    }
  }
}
