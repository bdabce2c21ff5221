/**
  The rows an assign queues when ServiceNow does not take its ticket move or its note: what
  they hold, word for word, and that each can be made good.
 */
module QueuedWrites {
  import opened Wrappers
  import opened Json
  import opened Stages
  import opened Database
  import opened Outside
  import opened Terms
  import FailureQueue
  import OutboundRetry
  import QueueFields
  import A = Assign
  import AssignLaws
  import AssignReport

  // ── what is stored ──

  /** The allow-list keeps a bag of names on it as it is. */
  lemma PickedWhole(bag: map<string, Json>, allowed: seq<string>)
    requires forall k :: k in bag ==> k in allowed && !FailureQueue.NeverStored(k) && bag[k] != Undefined
    ensures FailureQueue.Picked(Obj(bag), allowed) == bag
  {
    hide FailureQueue.NeverStored;
  }

  /** A queued ticket move on a RITM. */
  function MoveRow(r: RequestId, sysId: string, transition: string, note: string): Failure {
    Failure(TicketUpdate, QueueOpen,
            Obj(map["snTarget" := Str(sysId), "targetKind" := Str("ritm"), "note" := Str(note), "transition" := Str(transition)]),
            Undefined, 1, Some(r), None)
  }

  /** A queued work note on a parent record. */
  function NoteRow(r: RequestId, sysId: string, note: string): Failure {
    Failure(WorkNote, QueueOpen, Obj(map["snTarget" := Str(sysId), "note" := Str(note), "table" := Str("sc_request")]),
            Undefined, 1, Some(r), None)
  }

  lemma MoveIsStored(r: RequestId, sysId: string, transition: string, note: string)
    ensures FailureQueue.NewFailure(TicketUpdate, A.TicketUpdatePayload(sysId, transition, note), Undefined, Some(r)) == MoveRow(r, sysId, transition, note)
  {
    var names := FailureQueue.PayloadKeys(TicketUpdate);
    assert names[0] == "snTarget" && names[1] == "targetKind" && names[2] == "note" && names[3] == "transition";
    forall k | k in names ensures !FailureQueue.NeverStored(k) {
      QueueFields.NamesAreStorable(TicketUpdate, k);
      QueueFields.SecretMeans(k);
    }
    hide FailureQueue.NeverStored, FailureQueue.Picked;
    PickedWhole(A.TicketUpdatePayload(sysId, transition, note).fields, names);
  }

  lemma NoteIsStored(r: RequestId, sysId: string, note: string)
    ensures FailureQueue.NewFailure(WorkNote, Obj(map["snTarget" := Str(sysId), "note" := Str(note), "table" := Str("sc_request")]), Undefined, Some(r))
         == NoteRow(r, sysId, note)
  {
    var names := FailureQueue.PayloadKeys(WorkNote);
    assert names[0] == "snTarget" && names[1] == "note" && names[2] == "table";
    forall k | k in names ensures !FailureQueue.NeverStored(k) {
      QueueFields.NamesAreStorable(WorkNote, k);
      QueueFields.SecretMeans(k);
    }
    hide FailureQueue.NeverStored, FailureQueue.Picked;
    PickedWhole(map["snTarget" := Str(sysId), "note" := Str(note), "table" := Str("sc_request")], names);
  }

  /** A queued mail: who it is for and which template, and nothing else of it. */
  function MailRow(to: string, template: string): Failure {
    Failure(Notification, QueueOpen, Obj(map["to" := Str(to), "template" := Str(template)]), Undefined, 1, None, None)
  }

  lemma MailRowIsStored(to: string, template: string)
    ensures FailureQueue.NewFailure(Notification, Obj(map["to" := Str(to), "template" := Str(template)]), Undefined, None) == MailRow(to, template)
  {
    var names := FailureQueue.PayloadKeys(Notification);
    assert names[0] == "to" && names[1] == "template";
    forall k | k in names ensures !FailureQueue.NeverStored(k) {
      QueueFields.NamesAreStorable(Notification, k);
      QueueFields.SecretMeans(k);
    }
    hide FailureQueue.NeverStored, FailureQueue.Picked;
    PickedWhole(map["to" := Str(to), "template" := Str(template)], names);
  }

  // ── what an assign queues ──


  /** The note of a hold and the note of a close. */
  function HoldText(db: Db, l: LineId): string
    requires db.Valid() && l in db.lines
  {
    "License unavailable for " + db.catalogue.skus[db.lines[l].skuCatalogId].skuPartNumber + " — procurement in progress. Item on hold."
  }

  function AssignText(db: Db, l: LineId): string
    requires db.Valid() && l in db.lines
  {
    "License " + db.catalogue.skus[db.lines[l].skuCatalogId].skuPartNumber + " assigned via platform."
  }

  /** A hold is asked for once per line that has a RITM: taken, it is dated; not taken, it is queued. */
  lemma HoldsOrQueues(db: Db, l: LineId, o: A.Oracle)
    requires db.Valid() && l in db.lines
    ensures var line := db.lines[l];
      A.HoldTicket(db, l, o) ==
        if !Filled(line.serviceNowSysId) || line.ticketHeldAt != None then db
        else if o.ticket == A.TicketUpdated then db.(lines := db.lines[l := line.(ticketHeldAt := Some(o.now))])
        else db.(failures := db.failures + [MoveRow(line.requestId, line.serviceNowSysId.value, "hold", HoldText(db, l))])
  {
    var line := db.lines[l];
    if Filled(line.serviceNowSysId) {
      MoveIsStored(line.requestId, line.serviceNowSysId.value, "hold", HoldText(db, l));
    }
    hide FailureQueue.NewFailure, A.TicketUpdatePayload, MoveRow;
  }

  /** The row a write-back queues, if it queues one. */
  function QueuedByWriteBack(db: Db, l: LineId, o: A.Oracle): seq<Failure>
    requires db.Valid() && l in db.lines
  {
    var line := db.lines[l];
    var request := db.requests[line.requestId];
    if Filled(line.serviceNowSysId) then
      if o.ticket == A.TicketUpdated then [] else [MoveRow(line.requestId, line.serviceNowSysId.value, "close", AssignText(db, l))]
    else if Filled(request.serviceNowSysId) && o.workNote != A.WorkNoteAdded then
      [NoteRow(line.requestId, request.serviceNowSysId.value, AssignText(db, l))]
    else []
  }

  lemma WriteBackQueues(db: Db, l: LineId, o: A.Oracle)
    requires db.Valid() && l in db.lines
    ensures A.WriteBack(db, l, o).0 == db.(failures := db.failures + QueuedByWriteBack(db, l, o))
  {
    assert db.lines[l].requestId < |db.requests|;
    hide FailureQueue.NewFailure, A.TicketUpdatePayload, MoveRow, NoteRow, Db.Valid;
    assert db.failures + [] == db.failures;
    var line := db.lines[l];
    var request := db.requests[line.requestId];
    if Filled(line.serviceNowSysId) {
      MoveIsStored(line.requestId, line.serviceNowSysId.value, "close", AssignText(db, l));
    } else if Filled(request.serviceNowSysId) {
      NoteIsStored(line.requestId, request.serviceNowSysId.value, AssignText(db, l));
    }
  }

  lemma SettleQueues(db: Db, l: LineId, holding: HoldingStatus, o: A.Oracle)
    requires db.Valid() && l in db.lines
    ensures A.Settle(db, l, holding, o).0.failures == db.failures + QueuedByWriteBack(db, l, o)
  {
    AssignReport.CommitWrites(db, l, holding, o.now);
    var committed := A.Commit(db, l, holding, o.now);
    WriteBackQueues(committed, l, o);
    hide A.Commit, A.WriteBack, MoveRow, NoteRow, AssignText, Db.Valid;
  }

  /** What one assign queues: a hold when the budget refused it, a close or a note when it went
      through, and otherwise nothing. */
  lemma AssignQueues(w: World, call: A.AssignCall, o: A.Oracle)
    requires w.db.Valid()
    ensures var (after, result) := A.Outcome(w, call, o); var l := call.lineId;
      && (result.Blocked? || result.Done? ==> l in w.db.lines)
      && after.db.failures == w.db.failures + (
           if result.Blocked? && result.failedAt == A.Budget then QueuedByHold(w.db, l, o)
           else if result.Done? then QueuedByWriteBack(w.db, l, o)
           else [])
  {
    if A.Precheck(w.db, call).None? {
      var c := A.ContextOf(w, call, o);
      var n := A.FirstStop(c, 0);
      if n < |A.GATE_KEYS| {
        RefusalNamesItsGate(c, n);
        HoldQueues(w.db, call.lineId, o);
      } else {
        PerformQueues(w, call, o);
      }
    }
    hide A.FirstStop, A.ContextOf, A.RefusalAt, A.HoldTicket, A.Perform, QueuedByWriteBack, QueuedByHold, Db.Valid;
  }

  lemma RefusalNamesItsGate(c: A.Context, n: nat)
    requires n < |A.GATE_KEYS|
    ensures var refusal := A.RefusalAt(c, n);
      && !refusal.Done?
      && (refusal.Blocked? && refusal.failedAt == A.Budget <==> A.GATE_KEYS[n] == A.Budget)
  {
    assert !A.VerdictOf(A.Budget, c).Crash?;
    hide A.VerdictOf, A.GateSteps;
  }

  lemma PerformQueues(w: World, call: A.AssignCall, o: A.Oracle)
    requires w.db.Valid() && call.lineId in w.db.lines
    ensures var (after, result) := A.Perform(w, call, A.ContextOf(w, call, o));
      && !result.Blocked?
      && after.db.failures == w.db.failures + (if result.Done? then QueuedByWriteBack(w.db, call.lineId, o) else [])
  {
    SettleQueues(w.db, call.lineId, A.ContextOf(w, call, o).holding, o);
    hide A.GateSteps, A.Settle, QueuedByWriteBack, Db.Valid;
  }

  lemma HoldQueues(db: Db, l: LineId, o: A.Oracle)
    requires db.Valid() && l in db.lines
    ensures A.HoldTicket(db, l, o).failures == db.failures + QueuedByHold(db, l, o)
  {
    HoldsOrQueues(db, l, o);
    hide A.HoldTicket, MoveRow, HoldText, Db.Valid;
  }

  function QueuedByHold(db: Db, l: LineId, o: A.Oracle): seq<Failure>
    requires db.Valid() && l in db.lines
  {
    var line := db.lines[l];
    if Filled(line.serviceNowSysId) && line.ticketHeldAt == None && o.ticket != A.TicketUpdated then
      [MoveRow(line.requestId, line.serviceNowSysId.value, "hold", HoldText(db, l))]
    else []
  }

  // ── and how it is made good ──

  /** The row after one more attempt. */
  function Attempted(row: Failure, ok: bool, actor: Actor): Failure {
    if ok then row.(attemptCount := row.attemptCount + 1, status := Resolved, resolvedById := Some(actor.id))
    else row.(attemptCount := row.attemptCount + 1)
  }

  /** A retry of a row with this replay: good if and only if the vendor takes the replay. */
  predicate RepairsExactlyBy(w: World, id: FailureId, replay: OutboundRetry.Replay, refusal: Error, actor: Actor, o: OutboundRetry.RepairOracle)
    requires w.db.Valid() && id < |w.db.failures|
  {
    OutboundRetry.Retry(w, id, actor, o) ==
      (w.(db := w.db.(failures := w.db.failures[id := Attempted(w.db.failures[id], replay in o.accepted, actor)])),
       if replay in o.accepted then None else Some(refusal))
  }

  /** A queued hold is replayed as a hold and a queued close as a close, on the same RITM with the
      same note; while it is not resolved a retry succeeds if and only if the vendor takes that. */
  lemma QueuedMoveIsRepairable(w: World, id: FailureId, r: RequestId, sysId: string, close: bool, note: string, actor: Actor, o: OutboundRetry.RepairOracle)
    requires w.db.Valid() && id < |w.db.failures| && w.db.failures[id].status != Resolved && sysId != ""
    requires w.db.failures[id].kind == TicketUpdate
    requires w.db.failures[id].payload == MoveRow(r, sysId, if close then "close" else "hold", note).payload
    ensures RepairsExactlyBy(w, id,
      if close then OutboundRetry.CloseComplete(OutboundRetry.Ritm(sysId), note) else OutboundRetry.MarkInProgress(OutboundRetry.Ritm(sysId), note),
      BadRequest, actor, o)
  {
    assert "close" != "hold" && "ritm" != "task" by {
      assert "close"[0] == 'c' && "ritm"[0] == 'r';
    }
    hide Db.Valid;
  }

  /** A queued note is replayed on the parent record, in its table. */
  lemma QueuedNoteIsRepairable(w: World, id: FailureId, r: RequestId, sysId: string, note: string, actor: Actor, o: OutboundRetry.RepairOracle)
    requires w.db.Valid() && id < |w.db.failures| && w.db.failures[id].status != Resolved
    requires w.db.failures[id].kind == WorkNote && w.db.failures[id].payload == NoteRow(r, sysId, note).payload
    ensures RepairsExactlyBy(w, id, OutboundRetry.AddWorkNote(sysId, note, "sc_request"), Unavailable, actor, o)
  {
    hide Db.Valid;
  }
}
