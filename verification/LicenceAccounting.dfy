/**
  The once-only guard of the licence ticket: for a request pushed by the flat intake,
  every ticket its pushes raised is either on its lines or in the queue. Tickets opened by
  retrying its queued submissions are counted in LicenceLaws.
 */
module LicenceAccounting {
  import opened Wrappers
  import opened Stages
  import opened Database
  import opened Outside
  import opened LicenceTicket
  import IntakeService
  import FailureQueue
  import OutboundRequest

  /** The licence tickets that pushes of a request raised for it. */
  function Raised(tickets: seq<Ticket>, r: RequestId): nat {
    if tickets == [] then 0
    else
      var t := tickets[|tickets| - 1];
      Raised(tickets[..|tickets| - 1], r) + (if t.via.ViaLicence? && t.via.requestId == r then 1 else 0)
  }

  /** The queued rows that say a ticket was raised for a request but not written to it. */
  function Unwritten(failures: seq<Failure>, r: RequestId): nat {
    if failures == [] then 0
    else
      var row := failures[|failures| - 1];
      Unwritten(failures[..|failures| - 1], r) + (if row.kind == RequestMirror && row.requestId == Some(r) then 1 else 0)
  }

  predicate Accounted(w: World, r: RequestId) {
    Raised(w.tickets, r) == (if HasRitm(w.db.lines, r) then 1 else 0) + Unwritten(w.db.failures, r)
  }

  lemma OneMoreRaised(tickets: seq<Ticket>, t: Ticket, r: RequestId)
    ensures Raised(tickets + [t], r) == Raised(tickets, r) + (if t.via.ViaLicence? && t.via.requestId == r then 1 else 0)
  {
    assert (tickets + [t])[..|tickets|] == tickets;
  }

  lemma OneMoreRow(failures: seq<Failure>, row: Failure, r: RequestId)
    ensures Unwritten(failures + [row], r) == Unwritten(failures, r) + (if row.kind == RequestMirror && row.requestId == Some(r) then 1 else 0)
  {
    assert (failures + [row])[..|failures|] == failures;
  }

  /** Counting ignores everything about a row but its kind and its request. */
  lemma {:induction false} UnwrittenFrame(before: seq<Failure>, after: seq<Failure>, r: RequestId)
    requires |before| == |after|
    requires forall i :: 0 <= i < |before| ==> after[i].kind == before[i].kind && after[i].requestId == before[i].requestId
    ensures Unwritten(after, r) == Unwritten(before, r)
  {
    if before != [] {
      UnwrittenFrame(before[..|before| - 1], after[..|after| - 1], r);
    }
  }

  /** The books of every request, as far as tickets and queue rows go, are what they were. */
  ghost predicate BooksStand(w: World, after: World) {
    forall r :: Raised(after.tickets, r) == Raised(w.tickets, r) && Unwritten(after.db.failures, r) == Unwritten(w.db.failures, r)
  }

  /** The RITMs on the lines of the first `n` requests are what they were. */
  ghost predicate RitmsStand(before: map<LineId, Line>, after: map<LineId, Line>, n: nat) {
    && (forall l :: l in before && before[l].requestId < n && Truthy(before[l].serviceNowSysId) ==>
          l in after && after[l].requestId == before[l].requestId && after[l].serviceNowSysId == before[l].serviceNowSysId)
    && (forall l :: l in after && after[l].requestId < n && Truthy(after[l].serviceNowSysId) ==>
          l in before && before[l].requestId == after[l].requestId && Truthy(before[l].serviceNowSysId))
  }

  lemma StandingRitmsKeepTheGuard(before: map<LineId, Line>, after: map<LineId, Line>, n: nat, r: RequestId)
    requires RitmsStand(before, after, n) && r < n
    ensures HasRitm(after, r) <==> HasRitm(before, r)
  {
  }

  /** The provider names at least one item, and every item it names. */
  predicate NamesItems(outcome: SubmitOutcome) {
    outcome.Honours(if outcome.Submitted? then |outcome.lineItems| else 0) && (outcome.Submitted? ==> outcome.lineItems != [])
  }

  /** The lines of other requests keep their RITMs; the ticketed request now has one. */
  lemma TicketingSetsTheGuard(db: Db, r: RequestId, items: seq<SubmittedLine>, other: RequestId)
    requires db.Valid()
    requires var ids := LineIds(db.lines, r, db.nextLine); |items| <= |ids| && forall l :: l in ids ==> l in db.lines
    requires items != [] && items[0].serviceNowSysId != ""
    ensures var after := Ticketed(db.lines, LineIds(db.lines, r, db.nextLine), items);
      && HasRitm(after, r)
      && (other != r ==> (HasRitm(after, other) <==> HasRitm(db.lines, other)))
  {
    var ids := LineIds(db.lines, r, db.nextLine);
    LineIdsAreTheLines(db.lines, r, db.nextLine);
    hide LineIds;
    assert forall i, j :: 0 <= i < j < |ids| ==> ids[i] != ids[j];
    RitmLandsByIndex(db.lines, ids, items, 0);
    hide Ticketed, Db.Valid;
    var after := Ticketed(db.lines, ids, items);
    assert ids[0] in ids && Truthy(after[ids[0]].serviceNowSysId);
    if other != r {
      forall l | l in db.lines && db.lines[l].requestId == other ensures after[l] == db.lines[l] {
        assert forall i :: 0 <= i < |items| ==> ids[i] in ids;
        OtherLinesUntouched(db.lines, ids, items, l);
      }
    }
  }

  /** One raise: at most one more ticket, and it is on the lines or in the queue. */
  lemma RaiseAccounts(w: World, r: RequestId, dto: IntakeService.IntakeDto, requesterSysId: string, outcome: SubmitOutcome, writeFails: bool, watched: RequestId)
    requires w.db.Valid() && r < |w.db.requests| && NamesItems(outcome) && Accounted(w, watched)
    ensures Accounted(Raise(w, r, dto, requesterSysId, outcome, writeFails), watched)
  {
    hide Payload, OrderOf, OutboundRequest.TicketRef, FailureQueue.PickedPayload, FailureQueue.PickedExternalRef, LineIds, Ticketed;
    var ids := LineIds(w.db.lines, r, w.db.nextLine);
    LineIdsAreTheLines(w.db.lines, r, w.db.nextLine);
    if |ids| > 0 && !HasRitm(w.db.lines, r) {
      var after := Raise(w, r, dto, requesterSysId, outcome, writeFails);
      if outcome.Submitted? {
        OneMoreRaised(w.tickets, after.tickets[|w.tickets|], watched);
      }
      if outcome.SubmitThrows? || writeFails || |outcome.lineItems| > |ids| {
        OneMoreRow(w.db.failures, after.db.failures[|w.db.failures|], watched);
      } else {
        TicketingSetsTheGuard(w.db, r, outcome.lineItems, watched);
      }
    }
  }

  /** Raising for one request leaves the counts of the others alone. */
  lemma RaiseIsPrivate(w: World, r: RequestId, dto: IntakeService.IntakeDto, requesterSysId: string, outcome: SubmitOutcome, writeFails: bool, other: RequestId)
    requires w.db.Valid() && r < |w.db.requests| && other != r
    ensures var after := Raise(w, r, dto, requesterSysId, outcome, writeFails);
      Raised(after.tickets, other) == Raised(w.tickets, other) && Unwritten(after.db.failures, other) == Unwritten(w.db.failures, other)
  {
    hide Payload, OutboundRequest.TicketRef, FailureQueue.PickedPayload, FailureQueue.PickedExternalRef, LineIds, Ticketed;
    var ids := LineIds(w.db.lines, r, w.db.nextLine);
    LineIdsAreTheLines(w.db.lines, r, w.db.nextLine);
    if |ids| > 0 && !HasRitm(w.db.lines, r) {
      var after := Raise(w, r, dto, requesterSysId, outcome, writeFails);
      if outcome.Submitted? {
        OneMoreRaised(w.tickets, after.tickets[|w.tickets|], other);
      }
      if outcome.SubmitThrows? || writeFails || |outcome.lineItems| > |ids| {
        OneMoreRow(w.db.failures, after.db.failures[|w.db.failures|], other);
      }
    }
  }
}
