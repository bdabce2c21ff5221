/**
  Over every run of calls: how many tickets a queued request row has opened, how
  many attempts it has counted, and what its resolution proves.
 */
module QueueHistory {
  import opened Wrappers
  import opened Stages
  import opened Database
  import opened Outside
  import opened History
  import opened QueueRows
  import opened QueueDecisions
  import opened Platform
  import PlatformHistory
  import StageService
  import RequestService
  import SyncGates
  import Assign
  import IntakeService
  import OutboundRequest
  import OutboundRetry
  import LicenceTicket
  import FailureQueue

  /** The invariant of the queue machine. */
  ghost predicate Kept(w: World) {
    Sound(w.db) && QueueSound(w)
  }

  /** A mirrored ticket stays mirrored, because a request keeps its ServiceNow record. */
  lemma EvolvesKeepsMirrors(before: Db, after: Db)
    requires before.Valid() && after.Valid() && Evolves(before, after)
    ensures MirrorsStand(before, after)
  {
    forall s | s in before.requestBySysId ensures s in after.requestBySysId {
      var r := before.requestBySysId[s];
      assert RequestEvolves(before.requests[r], after.requests[r]);
    }
  }

  lemma StepKeepsMirrors(w: World, c: Call)
    requires Sound(w.db)
    ensures MirrorsStand(w.db, Step(w, c).db) && Sound(Step(w, c).db)
  {
    hide Step;
    PlatformHistory.StepKeeps(w, c);
    hide Db.Valid;
    EvolvesKeepsMirrors(w.db, Step(w, c).db);
  }

  predicate QueueDecision(c: Call) {
    c.RetryFailure? || c.AbandonFailure? || c.ReopenFailure?
  }

  /** The calls that neither queue nor submit. */
  lemma DomainCallsLeaveTheQueue(w: World, c: Call)
    requires w.db.Valid() && !QueueDecision(c) && !c.PushFlat? && !c.CreateOutbound? && !c.AssignLine? && !c.QueueNotification?
    ensures Step(w, c).db.failures == w.db.failures && Step(w, c).tickets == w.tickets
  {
    hide Db.Valid, StagesOf, StatusOf, RequestService.IntakeRow, RequestService.NewLineOf, IntakeService.Resolved,
         IntakeService.MirrorRow, NumberedLines;
  }

  lemma PushLeavesTheQueue(db: Db, dto: IntakeService.IntakeDto, writeFails: bool)
    requires db.Valid()
    ensures var after := IntakeService.Intake(db, dto, writeFails).0; after.failures == db.failures && after.catalogue == db.catalogue
  {
    hide Db.Valid;
  }

  /** Mirroring a request is nothing to the queue. */
  lemma MirroringGrowsNothing(w: World, db: Db, after: World)
    requires db.failures == w.db.failures && db.catalogue == w.db.catalogue
    ensures QueueGrows(w, w.(db := db))
    ensures QueueGrows(w.(db := db), after) ==> QueueGrows(w, after)
  {
    hide Mirrorable, RecordedSysId;
  }

  lemma FlatPushGrowsTheQueue(w: World, c: Call)
    requires w.db.Valid() && c.PushFlat?
    ensures QueueGrows(w, Step(w, c))
  {
    hide IntakeService.Intake, LicenceTicket.Raise, QueueGrows;
    MirroringGrowsNothing(w, w.db, w);
    if LicenceTicket.ActiveOpco(w.db.catalogue, c.flatDto.opcoCode) && c.req.ReqFound? {
      var canonical := LicenceTicket.Canonical(w.db.catalogue, c.flatDto, c.defaultSkuId, c.req.sysId);
      var (db, created) := IntakeService.Intake(w.db, canonical, c.writeFails);
      PushLeavesTheQueue(w.db, canonical, c.writeFails);
      MirroringGrowsNothing(w, db, Step(w, c));
      if created.Ok? {
        RaiseGrowsTheQueue(w.(db := db), created.value, canonical, c.req.openedBySysId, c.submit, c.ticketWriteFails);
      }
    }
  }

  lemma NotificationGrowsTheQueue(w: World, c: Call)
    requires w.db.Valid() && c.QueueNotification?
    ensures QueueGrows(w, Step(w, c))
  {
    hide Mirrorable, RecordedSysId, FailureQueue.PickedPayload, FailureQueue.PickedExternalRef, Db.Valid;
    assert FreshRow(w, Step(w, c));
  }

  lemma CreateCallGrowsTheQueue(w: World, c: Call)
    requires w.db.Valid() && c.CreateOutbound?
    ensures QueueGrows(w, Step(w, c))
  {
    hide OutboundRequest.Create, QueueGrows;
    CreateGrowsTheQueue(w, c.createDto, c.actor, c.submit, c.writeFails);
  }

  lemma AssignCallGrowsTheQueue(w: World, c: Call)
    requires w.db.Valid() && c.AssignLine?
    ensures QueueGrows(w, Step(w, c))
  {
    hide Assign.Outcome, QueueGrows;
    AssignGrowsTheQueue(w, c.assignCall, c.answers);
  }

  lemma OtherCallsGrowTheQueue(w: World, c: Call)
    requires w.db.Valid() && !QueueDecision(c)
    ensures QueueGrows(w, Step(w, c))
  {
    hide Step, FreshRow;
    if c.PushFlat? {
      FlatPushGrowsTheQueue(w, c);
    } else if c.CreateOutbound? {
      CreateCallGrowsTheQueue(w, c);
    } else if c.QueueNotification? {
      NotificationGrowsTheQueue(w, c);
    } else if c.AssignLine? {
      AssignCallGrowsTheQueue(w, c);
    } else {
      DomainCallsLeaveTheQueue(w, c);
    }
  }

  /** The call is a retry of row `id` that the queue lets through. */
  predicate Admitted(w: World, c: Call, id: FailureId) {
    c.RetryFailure? && c.failureId == id && OutboundRetry.Retryable(w.db, id)
  }

  /** The call is a retry of row `id` that opens a ticket and leaves the row unresolved. */
  predicate Orphans(w: World, c: Call, id: FailureId)
    requires w.db.Valid()
  {
    c.RetryFailure? && c.failureId == id && Orphaning(w, id, c.repair)
  }

  /** One call, seen from one row. */
  ghost predicate RowSteps(w: World, after: World, id: FailureId, admitted: nat, orphans: nat) {
    && RowKept(w.db, after.db, id)
    && Attempts(after.db, id) == Attempts(w.db, id) + admitted
    && Extra(after, id) == Extra(w, id) + orphans
  }

  lemma GrowthKeepsRow(w: World, after: World, id: FailureId)
    requires QueueSound(w) && MirrorsStand(w.db, after.db) && QueueGrows(w, after)
    ensures RowSteps(w, after, id, 0, 0)
  {
    if id < |w.db.failures| {
      OldRowStaysSound(w, after, id);
    } else if id < |after.db.failures| {
      hide Mirrorable, RecordedSysId, RowSound;
      UnnamedRowHasNoTicket(w.tickets, id);
    }
  }

  lemma StepKeepsQueue(w: World, c: Call, id: FailureId)
    requires Kept(w)
    ensures var after := Step(w, c);
      && Kept(after)
      && RowSteps(w, after, id, if Admitted(w, c, id) then 1 else 0, if Orphans(w, c, id) then 1 else 0)
  {
    StepKeepsMirrors(w, c);
    assert w.db.Valid();
    hide Sound, Db.Valid, QueueSound, RowKept, MirrorsStand, Attempts, Extra;
    if QueueDecision(c) {
      DecisionKeepsQueue(w, c, id);
    } else {
      OtherCallsGrowTheQueue(w, c);
      hide Step, QueueGrows;
      GrowthKeepsQueueSound(w, Step(w, c));
      GrowthKeepsRow(w, Step(w, c), id);
    }
  }

  lemma DecisionKeepsQueue(w: World, c: Call, id: FailureId)
    requires w.db.Valid() && QueueSound(w) && QueueDecision(c) && MirrorsStand(w.db, Step(w, c).db)
    ensures var after := Step(w, c);
      && QueueSound(after)
      && RowSteps(w, after, id, if Admitted(w, c, id) then 1 else 0, if Orphans(w, c, id) then 1 else 0)
  {
    hide Db.Valid, QueueSound, RowKept, MirrorsStand, Attempts, Extra, OutboundRetry.Repair;
    match c {
      case RetryFailure(row, actor, repair) =>
        if OutboundRetry.Retryable(w.db, row) {
          RetryKeepsQueueSound(w, row, actor, repair);
          RetryCounts(w, row, actor, repair, id);
        } else {
          UndecidedRowStays(w, id);
        }
      case AbandonFailure(row, actor) => AbandonKeepsQueue(w, row, actor, id);
      case ReopenFailure(row) => ReopenKeepsQueue(w, row, id);
    }
  }

  lemma UndecidedRowStays(w: World, id: FailureId)
    ensures RowSteps(w, w, id, 0, 0)
  {
  }

  // ── over runs ──

  function AdmittedRetries(w: World, calls: seq<Call>, id: FailureId): nat
    requires w.db.Valid()
    decreases |calls|
  {
    if calls == [] then 0
    else (if Admitted(w, calls[0], id) then 1 else 0) + AdmittedRetries(Step(w, calls[0]), calls[1..], id)
  }

  function OrphanedTickets(w: World, calls: seq<Call>, id: FailureId): nat
    requires w.db.Valid()
    decreases |calls|
  {
    if calls == [] then 0
    else (if Orphans(w, calls[0], id) then 1 else 0) + OrphanedTickets(Step(w, calls[0]), calls[1..], id)
  }

  /** A row's contents never change and its resolution is final; its attempts grow by exactly
      the retries admitted; a submit row's tickets are exactly the orphaned ones plus the one
      its resolution stands for. */
  lemma {:induction false} RunKeepsQueue(w: World, calls: seq<Call>, id: FailureId)
    requires Kept(w)
    ensures var after := Run(w, calls);
      && Kept(after)
      && RowSteps(w, after, id, AdmittedRetries(w, calls, id), OrphanedTickets(w, calls, id))
    decreases |calls|
  {
    assert w.db.Valid();
    if calls == [] {
      UndecidedRowStays(w, id);
    } else {
      FirstThenTheRest(w, calls, id);
      hide Run, AdmittedRetries, OrphanedTickets, QueueSound, Sound, RowKept, Attempts, Extra, Step, Kept, RowSteps, Db.Valid, Admitted, Orphans;
      StepKeepsQueue(w, calls[0], id);
      var next, rest := Step(w, calls[0]), calls[1..];
      RunKeepsQueue(next, rest, id);
      var admitted: nat := if Admitted(w, calls[0], id) then 1 else 0;
      var orphans: nat := if Orphans(w, calls[0], id) then 1 else 0;
      RowStepsOn(w, next, Run(next, rest), id, admitted, orphans, AdmittedRetries(next, rest, id), OrphanedTickets(next, rest, id));
    }
  }

  lemma FirstThenTheRest(w: World, calls: seq<Call>, id: FailureId)
    requires w.db.Valid() && calls != []
    ensures var next, rest := Step(w, calls[0]), calls[1..];
      && Run(w, calls) == Run(next, rest)
      && AdmittedRetries(w, calls, id) == (if Admitted(w, calls[0], id) then 1 else 0) + AdmittedRetries(next, rest, id)
      && OrphanedTickets(w, calls, id) == (if Orphans(w, calls[0], id) then 1 else 0) + OrphanedTickets(next, rest, id)
  {
    hide Step, Db.Valid, Admitted, Orphans;
  }

  lemma RowStepsOn(a: World, b: World, c: World, id: FailureId, admitted: nat, orphans: nat, admitted': nat, orphans': nat)
    requires RowSteps(a, b, id, admitted, orphans) && RowSteps(b, c, id, admitted', orphans')
    ensures RowSteps(a, c, id, admitted + admitted', orphans + orphans')
  {
    hide Extra, Attempts;
  }
}
