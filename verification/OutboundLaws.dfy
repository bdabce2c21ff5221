/** What the queue machine means for one create, one ticket and one mirror. */
module OutboundLaws {
  import opened Wrappers
  import opened Json
  import opened Stages
  import opened Database
  import opened Outside
  import opened History
  import opened QueueRows
  import opened QueueDecisions
  import opened QueueHistory
  import opened Platform
  import FailureQueue
  import IntakeService
  import OutboundRequest
  import OutboundRetry
  import LicenceTicket
  import RepairRoundTrip
  import PlatformHistory

  /** Retries of row `id` write their mirror. */
  predicate LocalWritesSucceed(calls: seq<Call>, id: FailureId) {
    forall i :: 0 <= i < |calls| && calls[i].RetryFailure? && calls[i].failureId == id ==> !calls[i].repair.localWriteFails
  }

  lemma {:induction false} NoWriteFailsNoOrphans(w: World, calls: seq<Call>, id: FailureId)
    requires Kept(w) && LocalWritesSucceed(calls, id)
    ensures OrphanedTickets(w, calls, id) == 0
    decreases |calls|
  {
    assert w.db.Valid();
    if calls != [] {
      StepKeepsQueue(w, calls[0], id);
      if calls[0].RetryFailure? && calls[0].failureId == id {
        OrphansExactlyWhen(w, id, calls[0].repair);
      }
      hide Step, Kept, Db.Valid;
      NoWriteFailsNoOrphans(Step(w, calls[0]), calls[1..], id);
    }
  }

  /** A create that could not submit: whatever is retried, abandoned or reopened afterwards,
      its row has opened one ticket if it is resolved and none if it is not. */
  lemma OneTicketPerFailedSubmit(w: World, create: Call, calls: seq<Call>)
    requires Kept(w) && create.CreateOutbound? && create.submit.SubmitThrows?
    requires OutboundRequest.Create(w, create.createDto, create.actor, create.submit, create.writeFails).1 == Err(Unavailable)
    requires LocalWritesSucceed(calls, |w.db.failures|)
    ensures var id := |w.db.failures|; var after := Run(Step(w, create), calls);
      && id < |after.db.failures|
      && TicketsFor(after.tickets, id) == (if after.db.failures[id].status == Resolved then 1 else 0)
      && after.db.failures[id].attemptCount == 1 + AdmittedRetries(Step(w, create), calls, id)
  {
    var id := |w.db.failures|;
    var queued := Step(w, create);
    assert id < |queued.db.failures| && queued.db.failures[id].kind == RequestSubmit;
    StepKeepsQueue(w, create, id);
    hide Kept, Step, Run;
    NoWriteFailsNoOrphans(queued, calls, id);
    RunKeepsQueue(queued, calls, id);
  }

  /** A create whose local write failed: its one ticket stays its only one, and no retry
      ever submits for it again. */
  lemma OneTicketPerFailedMirror(w: World, create: Call, calls: seq<Call>)
    requires Kept(w) && create.CreateOutbound?
    requires OutboundRequest.Create(w, create.createDto, create.actor, create.submit, create.writeFails).1 == Err(Internal)
    ensures var id := |w.db.failures|; var after := Run(Step(w, create), calls);
      && id < |after.db.failures|
      && TicketsFor(after.tickets, id) == 1
      && (forall t :: t in after.tickets && RowOf(t) == Some(id) ==> !t.via.ViaRetry? && t.sysId == create.submit.serviceNowSysId)
      && after.db.failures[id].attemptCount == 1 + AdmittedRetries(Step(w, create), calls, id)
  {
    var id := |w.db.failures|;
    var queued := Step(w, create);
    OrphanIsQueued(w, create);
    StepKeepsQueue(w, create, id);
    RunKeepsQueue(queued, calls, id);
    var after := Run(queued, calls);
    assert RowSound(after, id);
    TicketRefNamesTheTicket(create.submit, OutboundRequest.Payload(w.db.catalogue, create.createDto), None);
    hide Sound, Step, Run;
  }

  lemma OrphanIsQueued(w: World, create: Call)
    requires w.db.Valid() && create.CreateOutbound?
    requires OutboundRequest.Create(w, create.createDto, create.actor, create.submit, create.writeFails).1 == Err(Internal)
    ensures OutboundRequest.AllOrderable(w.db.catalogue, create.createDto.lineItems) && create.submit.Submitted?
    ensures create.createDto.opcoCode in w.db.catalogue.opcoByCode
    ensures Step(w, create).db == w.db.(failures := w.db.failures + [RepairRoundTrip.OrphanRow(w.db.catalogue, create.createDto, create.submit)])
  {
    hide FailureQueue.NewFailure, OutboundRequest.Payload, OutboundRequest.TicketRef, OutboundRequest.MirrorRow, OutboundRequest.MirrorLines;
  }

  /** A resolved request row: some ticket of its own has exactly one local mirror. */
  lemma ResolvedMeansMirroredOnce(w: World, id: FailureId)
    requires Kept(w) && id < |w.db.failures| && w.db.failures[id].status == Resolved
    requires FailureQueue.CarriesLineItems(w.db.failures[id].kind)
    ensures exists t, r ::
      && t in w.tickets && RowOf(t) == Some(id)
      && MirroredBy(w.db, t.sysId, r)
  {
    assert RowSound(w, id);
    var row := w.db.failures[id];
    var t: Ticket;
    if row.kind == RequestMirror {
      NamedRowHasATicket(w.tickets, id);
      t :| t in w.tickets && RowOf(t) == Some(id);
    } else {
      t :| t in w.tickets && t.via == ViaRetry(id) && t.sysId in w.db.requestBySysId;
    }
    hide StatusAgrees, TimelineAgrees, AssignsStand, GatesPassed, QueueSound, RowSound;
    assert MirroredBy(w.db, t.sysId, w.db.requestBySysId[t.sysId]);
  }

  /** `r` is the one request that mirrors this ticket. */
  ghost predicate MirroredBy(db: Db, sysId: string, r: RequestId) {
    r < |db.requests| && forall other :: 0 <= other < |db.requests| ==> (db.requests[other].serviceNowSysId == Some(sysId) <==> other == r)
  }

  lemma {:induction false} NamedRowHasATicket(tickets: seq<Ticket>, id: FailureId)
    requires TicketsFor(tickets, id) > 0
    ensures exists t :: t in tickets && RowOf(t) == Some(id)
  {
    var last := tickets[|tickets| - 1];
    if RowOf(last) != Some(id) {
      NamedRowHasATicket(tickets[..|tickets| - 1], id);
    }
  }

  /** End to end: create, lose the local write, let the platform run on, and repair. The
      request and the lines that come to be are those the lost write would have stored. */
  lemma LostWriteIsRecovered(w: World, create: Call, calls: seq<Call>)
    requires Kept(w) && create.CreateOutbound?
    requires OutboundRequest.Create(w, create.createDto, create.actor, create.submit, create.writeFails).1 == Err(Internal)
    requires create.submit.Honours(|create.createDto.lineItems|)
    requires create.submit.serviceNowSysId !in Run(Step(w, create), calls).db.requestBySysId
    ensures var db := Run(Step(w, create), calls).db;
      && |w.db.failures| < |db.failures|
      && create.createDto.opcoCode in w.db.catalogue.opcoByCode
      && OutboundRequest.AllOrderable(w.db.catalogue, create.createDto.lineItems)
      && var row := OutboundRequest.MirrorRow(create.createDto, w.db.catalogue.opcoByCode[create.createDto.opcoCode], create.submit);
         var lines := OutboundRequest.MirrorLines(w.db.catalogue, create.createDto.lineItems, create.submit);
      && row.opcoId in db.catalogue.opcos && db.ValidLines(lines)
      && OutboundRetry.RepairMirror(db, |w.db.failures|, false) == (db.CreateRequest(row, lines), Ok(|db.requests|))
  {
    var id := |w.db.failures|;
    var queued := Step(w, create);
    OrphanIsQueued(w, create);
    StepKeepsQueue(w, create, id);
    RunKeepsQueue(queued, calls, id);
    PlatformHistory.RunKeepsCatalogue(queued, calls);
    var db := Run(queued, calls).db;
    hide StatusAgrees, TimelineAgrees, AssignsStand, GatesPassed, QueueSound, Step, Run, Attempts, Extra, RepairRoundTrip.OrphanRow, OutboundRetry.RepairMirror;
    RepairRoundTrip.RepairBuildsWhatCreateWouldHave(w.db.catalogue, db, id, create.createDto, create.submit);
  }

  /** Where one ticket per create ends: a retry whose submission goes through and whose local
      write then fails leaves its row open, and the next retry submits a second time. */
  lemma SecondTicketAfterAFailedWrite(w: World, id: FailureId, actor: Actor, first: OutboundRetry.RepairOracle, second: OutboundRetry.RepairOracle)
    requires Kept(w) && OutboundRetry.Retryable(w.db, id) && w.db.failures[id].kind == RequestSubmit
    requires first.submit.Submitted? && first.localWriteFails && first.submit.serviceNowSysId !in w.db.requestBySysId
    requires second.submit.Submitted? && !second.localWriteFails
    ensures var after := Step(Step(w, RetryFailure(id, actor, first)), RetryFailure(id, actor, second));
      && id < |after.db.failures|
      && after.db.failures[id].status == Resolved
      && TicketsFor(after.tickets, id) == TicketsFor(w.tickets, id) + 2
  {
    assert w.db.Valid();
    OrphanLeavesTheRowOpen(w, id, actor, first);
    var between := Step(w, RetryFailure(id, actor, first));
    RetryResolves(between, id, actor, second);
  }

  lemma OrphanLeavesTheRowOpen(w: World, id: FailureId, actor: Actor, o: OutboundRetry.RepairOracle)
    requires Kept(w) && OutboundRetry.Retryable(w.db, id) && w.db.failures[id].kind == RequestSubmit
    requires o.submit.Submitted? && o.localWriteFails && o.submit.serviceNowSysId !in w.db.requestBySysId
    ensures var after := Step(w, RetryFailure(id, actor, o));
      && Kept(after) && OutboundRetry.Retryable(after.db, id) && after.db.failures[id].kind == RequestSubmit
      && TicketsFor(after.tickets, id) == TicketsFor(w.tickets, id) + 1
  {
    assert w.db.Valid() && QueueSound(w);
    assert Step(w, RetryFailure(id, actor, o)) == OutboundRetry.Retry(w, id, actor, o).0;
    StepKeepsQueue(w, RetryFailure(id, actor, o), id);
    hide Step, Kept, QueueSound, Db.Valid, OutboundRetry.Retry, OutboundRetry.Repair;
    OrphansExactlyWhen(w, id, o);
    RetryDecides(w, id, actor, o);
  }

  lemma RetryResolves(w: World, id: FailureId, actor: Actor, o: OutboundRetry.RepairOracle)
    requires Kept(w) && OutboundRetry.Retryable(w.db, id) && w.db.failures[id].kind == RequestSubmit
    requires o.submit.Submitted? && !o.localWriteFails
    ensures var after := Step(w, RetryFailure(id, actor, o));
      && id < |after.db.failures| && after.db.failures[id].status == Resolved
      && TicketsFor(after.tickets, id) == TicketsFor(w.tickets, id) + 1
  {
    assert w.db.Valid() && QueueSound(w);
    assert Step(w, RetryFailure(id, actor, o)) == OutboundRetry.Retry(w, id, actor, o).0;
    StepKeepsQueue(w, RetryFailure(id, actor, o), id);
    hide Step, Kept, QueueSound, Db.Valid, OutboundRetry.Retry, OutboundRetry.Repair;
    OrphansExactlyWhen(w, id, o);
    RetryDecides(w, id, actor, o);
  }
}
