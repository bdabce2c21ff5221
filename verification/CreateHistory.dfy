/** Over every run: a create whose submission or mirror failed can be made good, for the same order. */
module CreateHistory {
  import opened Wrappers
  import opened Json
  import opened Database
  import opened Outside
  import opened Platform
  import opened QueueHistory
  import opened CreateLaws
  import QueueDecisions
  import QueueRows
  import PlatformHistory
  import IntakeLaws
  import RepairRoundTrip
  import History
  import O = OutboundRequest
  import R = OutboundRetry

  /** The row the create left is the create's, and still unresolved. */
  ghost predicate StillQueued(db: Db, id: FailureId, row: Failure) {
    && id < |db.failures|
    && db.failures[id].status != Resolved
    && db.failures[id].kind == row.kind && db.failures[id].payload == row.payload && db.failures[id].externalRef == row.externalRef
  }

  /** Apart from the queue the tables gained the request and the lines of this create. */
  ghost predicate Recovered(before: Db, after: Db, dto: O.CreateDto, outcome: SubmitOutcome) {
    && dto.opcoCode in before.catalogue.opcoByCode && outcome.Submitted? && |dto.lineItems| <= |outcome.lineItems|
    && MirrorStored(before, after.(failures := before.failures), dto, before.catalogue.opcoByCode[dto.opcoCode], outcome)
  }

  /** One more ticket, for the order this create asks for. */
  predicate OrderPlaced(before: World, after: World, dto: O.CreateDto) {
    && |after.tickets| == |before.tickets| + 1 && after.tickets[..|before.tickets|] == before.tickets
    && Asks(after.tickets[|before.tickets|].order, before.db.catalogue, dto)
  }

  /** The submission failed. A retry that submits and can write places the order of the create and
      stores its request and lines under the new ticket. */
  lemma SubmitRowIsMadeGood(w: World, id: FailureId, dto: O.CreateDto, actor: Actor, o: R.RepairOracle)
    requires w.db.Valid() && O.AllOrderable(w.db.catalogue, dto.lineItems) && dto.opcoCode in w.db.catalogue.opcoByCode
    requires StillQueued(w.db, id, RowOf(w.db.catalogue, dto, SubmitThrows))
    requires o.submit.Submitted? && o.submit.Honours(|dto.lineItems|) && !o.localWriteFails
    requires !IntakeLaws.Mirrored(w.db, o.submit.serviceNowSysId)
    ensures var (after, error) := R.Retry(w, id, actor, o);
      error == None && OrderPlaced(w, after, dto) && Recovered(w.db, after.db, dto, o.submit)
  {
    OrderAsks(w.db, dto);
    hide Asks, Db.Valid, R.WriteMirror, R.SubmittedRefs, R.RepairOrder, MirrorStored, O.AllOrderable, O.OrderOf, O.Payload, IntakeLaws.Mirrored, SubmitOutcome.Honours;
    RowMirrors(w.db, dto, SubmitThrows, o.submit);
    RetryAsksTheSame(w.db.catalogue, dto, SubmitThrows);
    SameFailures(R.WriteMirror(w.db, ToBag(w.db.failures[id].payload), R.SubmittedRefs(o.submit), false).0, w.db, R.Retry(w, id, actor, o).0.db);
  }

  lemma SameFailures(mirrored: Db, before: Db, after: Db)
    requires mirrored.failures == before.failures
    ensures after == mirrored.(failures := after.failures) ==> after.(failures := before.failures) == mirrored
  {
  }

  /** The mirror failed. A retry that can write opens no ticket and stores the request and the lines
      of the ticket that is there. */
  lemma MirrorRowIsMadeGood(w: World, id: FailureId, dto: O.CreateDto, outcome: SubmitOutcome, actor: Actor, o: R.RepairOracle)
    requires w.db.Valid() && O.AllOrderable(w.db.catalogue, dto.lineItems) && dto.opcoCode in w.db.catalogue.opcoByCode
    requires outcome.Submitted? && outcome.Honours(|dto.lineItems|)
    requires StillQueued(w.db, id, RowOf(w.db.catalogue, dto, outcome))
    requires !o.localWriteFails && !IntakeLaws.Mirrored(w.db, outcome.serviceNowSysId)
    ensures var (after, error) := R.Retry(w, id, actor, o);
      error == None && after.tickets == w.tickets && Recovered(w.db, after.db, dto, outcome)
  {
    hide Db.Valid, R.WriteMirror, R.SubmittedRefs, R.RecordedRefs, MirrorStored, O.AllOrderable, O.Payload, O.TicketRef, IntakeLaws.Mirrored;
    RowMirrors(w.db, dto, outcome, outcome);
    RefsReadBack(w.db.catalogue, dto, outcome);
    SameFailures(R.WriteMirror(w.db, ToBag(w.db.failures[id].payload), R.SubmittedRefs(outcome), false).0, w.db, R.Retry(w, id, actor, o).0.db);
  }

  lemma RefsReadBack(catalogue: Catalogue, dto: O.CreateDto, outcome: SubmitOutcome)
    requires O.AllOrderable(catalogue, dto.lineItems) && outcome.Submitted?
    ensures R.RecordedRefs(RowOf(catalogue, dto, outcome).externalRef) == R.SubmittedRefs(outcome)
    ensures R.SubmittedRefs(outcome).serviceNowSysId == outcome.serviceNowSysId
  {
    RepairRoundTrip.TicketRefsReadBack(outcome);
    hide R.RecordedRefs, O.Payload, O.TicketRef;
  }

  /** Whatever happens in between, the row a create left keeps what it needs. */
  lemma CreateRowStays(w: World, create: Call, calls: seq<Call>)
    requires Kept(w) && w.db.Valid() && create.CreateOutbound?
    requires Submits(w.db, create.createDto, create.actor) && !Mirrors(w.db, create.createDto, create.submit, create.writeFails)
    ensures O.AllOrderable(w.db.catalogue, create.createDto.lineItems)
    ensures var db := Run(Step(w, create), calls).db; var id := |w.db.failures|;
      && db.catalogue == w.db.catalogue && id < |db.failures|
      && (db.failures[id].status != Resolved ==> StillQueued(db, id, RowOf(w.db.catalogue, create.createDto, create.submit)))
  {
    hide Run, Db.Valid, Submits, Mirrors, O.AllOrderable, O.Create, RowOf, QueuedAs, History.Sound, QueueRows.QueueSound;
    CreateQueues(w, create.createDto, create.actor, create.submit, create.writeFails);
    StepKeepsQueue(w, create, |w.db.failures|);
    assert Step(w, create).db == O.Create(w, create.createDto, create.actor, create.submit, create.writeFails).0.db;
    hide Step;
    RunKeepsQueue(Step(w, create), calls, |w.db.failures|);
    PlatformHistory.RunKeepsCatalogue(Step(w, create), calls);
    hide QueueDecisions.Attempts, QueueDecisions.Extra;
  }

  /** The row is not resolved yet and the ticket not mirrored. */
  predicate Unrepaired(db: Db, id: FailureId, sysId: string) {
    id < |db.failures| && db.failures[id].status != Resolved && !IntakeLaws.Mirrored(db, sysId)
  }

  /** A create that could not submit, at any later time while its row is not resolved: a retry that
      submits opens a ticket for the order the create asked for, and stores its request and lines. */
  lemma FailedSubmitIsMadeGood(w: World, create: Call, calls: seq<Call>, actor: Actor, o: R.RepairOracle)
    requires Kept(w) && w.db.Valid() && create.CreateOutbound? && create.submit.SubmitThrows?
    requires Submits(w.db, create.createDto, create.actor)
    requires o.submit.Submitted? && o.submit.Honours(|create.createDto.lineItems|) && !o.localWriteFails
    requires Unrepaired(Run(Step(w, create), calls).db, |w.db.failures|, o.submit.serviceNowSysId)
    ensures var before := Run(Step(w, create), calls); var (after, error) := R.Retry(before, |w.db.failures|, actor, o);
      error == None && OrderPlaced(before, after, create.createDto) && Recovered(before.db, after.db, create.createDto, o.submit)
  {
    hide Run, Step, Kept, Db.Valid, Mirrors, O.AllOrderable, OrderPlaced, Recovered, R.Retry, RowOf, StillQueued, IntakeLaws.Mirrored, SubmitOutcome.Honours;
    NothingToMirror(w.db, create.createDto, create.writeFails);
    CreateRowStays(w, create, calls);
    SubmitRowIsMadeGood(Run(Step(w, create), calls), |w.db.failures|, create.createDto, actor, o);
  }

  lemma NothingToMirror(db: Db, dto: O.CreateDto, writeFails: bool)
    ensures !Mirrors(db, dto, SubmitThrows, writeFails)
  {
  }

  /** A create that submitted and could not store, at any later time while its row is not resolved:
      a retry opens no ticket and stores that request and those lines under the ticket there is. */
  lemma FailedMirrorIsMadeGood(w: World, create: Call, calls: seq<Call>, actor: Actor, o: R.RepairOracle)
    requires Kept(w) && w.db.Valid() && create.CreateOutbound? && create.submit.Submitted?
    requires Submits(w.db, create.createDto, create.actor) && !Mirrors(w.db, create.createDto, create.submit, create.writeFails)
    requires create.submit.Honours(|create.createDto.lineItems|)
    requires Unrepaired(Run(Step(w, create), calls).db, |w.db.failures|, create.submit.serviceNowSysId)
    requires !o.localWriteFails
    ensures var before := Run(Step(w, create), calls); var (after, error) := R.Retry(before, |w.db.failures|, actor, o);
      error == None && after.tickets == before.tickets && Recovered(before.db, after.db, create.createDto, create.submit)
  {
    hide Run, Step, Kept, Db.Valid, Mirrors, O.AllOrderable, Recovered, R.Retry, RowOf, StillQueued, IntakeLaws.Mirrored, SubmitOutcome.Honours;
    CreateRowStays(w, create, calls);
    MirrorRowIsMadeGood(Run(Step(w, create), calls), |w.db.failures|, create.createDto, create.submit, actor, o);
  }
}
