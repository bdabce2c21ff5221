/** Over every run: what an assign queued can be made good for as long as it is not resolved. */
module QueueLaws {
  import opened Wrappers
  import opened Json
  import opened Database
  import opened Outside
  import opened Terms
  import opened Platform
  import opened QueueHistory
  import opened QueuedWrites
  import OutboundRetry
  import FailureQueue
  import QueueFields
  import QueueDecisions
  import A = Assign

  /** The line's own RITM when it has one, else the parent record. */
  predicate Addressed(db: Db, l: LineId, held: bool)
    requires db.Valid() && l in db.lines
  {
    Filled(db.lines[l].serviceNowSysId) || (!held && Filled(db.requests[db.lines[l].requestId].serviceNowSysId))
  }

  /** The vendor call that did not go through. */
  function MissedCall(db: Db, l: LineId, held: bool): OutboundRetry.Replay
    requires db.Valid() && l in db.lines && Addressed(db, l, held)
  {
    var line := db.lines[l];
    if held then OutboundRetry.MarkInProgress(OutboundRetry.Ritm(line.serviceNowSysId.value), HoldText(db, l))
    else if Filled(line.serviceNowSysId) then OutboundRetry.CloseComplete(OutboundRetry.Ritm(line.serviceNowSysId.value), AssignText(db, l))
    else OutboundRetry.AddWorkNote(db.requests[line.requestId].serviceNowSysId.value, AssignText(db, l), "sc_request")
  }

  /** An assign queues a row only for a call that did not go through, and names it in full. */
  predicate RowHolds(row: Failure, db: Db, l: LineId, held: bool)
    requires db.Valid() && l in db.lines && Addressed(db, l, held)
  {
    var line := db.lines[l];
    if held then row == MoveRow(line.requestId, line.serviceNowSysId.value, "hold", HoldText(db, l))
    else if Filled(line.serviceNowSysId) then row == MoveRow(line.requestId, line.serviceNowSysId.value, "close", AssignText(db, l))
    else row == NoteRow(line.requestId, db.requests[line.requestId].serviceNowSysId.value, AssignText(db, l))
  }

  lemma QueuedRowsHold(db: Db, l: LineId, o: A.Oracle)
    requires db.Valid() && l in db.lines
    ensures var rows := QueuedByHold(db, l, o); rows == [] || (|rows| == 1 && Addressed(db, l, true) && RowHolds(rows[0], db, l, true))
    ensures var rows := QueuedByWriteBack(db, l, o); rows == [] || (|rows| == 1 && Addressed(db, l, false) && RowHolds(rows[0], db, l, false))
  {
    assert db.lines[l].requestId < |db.requests|;
    hide MoveRow, NoteRow, HoldText, AssignText, Db.Valid;
  }

  lemma QueuedRowHolds(w: World, call: A.AssignCall, o: A.Oracle)
    requires w.db.Valid() && A.Outcome(w, call, o).0.db.failures != w.db.failures
    ensures var (after, result) := A.Outcome(w, call, o);
      && (result.Blocked? || result.Done?) && call.lineId in w.db.lines
      && Addressed(w.db, call.lineId, result.Blocked?)
      && |after.db.failures| == |w.db.failures| + 1
      && after.db.failures[..|w.db.failures|] == w.db.failures
      && RowHolds(after.db.failures[|w.db.failures|], w.db, call.lineId, result.Blocked?)
  {
    hide A.Outcome, MoveRow, NoteRow, HoldText, AssignText, QueuedByHold, QueuedByWriteBack, Addressed, RowHolds, Db.Valid;
    AssignQueues(w, call, o);
    assert w.db.failures + [] == w.db.failures;
    if call.lineId in w.db.lines {
      QueuedRowsHold(w.db, call.lineId, o);
    }
  }

  lemma HeldRowIsRepairable(w: World, id: FailureId, row: Failure, db: Db, l: LineId, held: bool, actor: Actor, o: OutboundRetry.RepairOracle)
    requires w.db.Valid() && id < |w.db.failures| && w.db.failures[id].status != Resolved
    requires db.Valid() && l in db.lines && Addressed(db, l, held) && RowHolds(row, db, l, held)
    requires w.db.failures[id].kind == row.kind && w.db.failures[id].payload == row.payload
    ensures RepairsExactlyBy(w, id, MissedCall(db, l, held),
      if MissedCall(db, l, held).AddWorkNote? then Unavailable else BadRequest, actor, o)
  {
    var line := db.lines[l];
    assert line.requestId < |db.requests|;
    hide RepairsExactlyBy, HoldText, AssignText, Db.Valid;
    if held {
      QueuedMoveIsRepairable(w, id, line.requestId, line.serviceNowSysId.value, false, HoldText(db, l), actor, o);
    } else if Filled(line.serviceNowSysId) {
      QueuedMoveIsRepairable(w, id, line.requestId, line.serviceNowSysId.value, true, AssignText(db, l), actor, o);
    } else {
      QueuedNoteIsRepairable(w, id, line.requestId, db.requests[line.requestId].serviceNowSysId.value, AssignText(db, l), actor, o);
    }
  }

  /** While the row is not resolved, a retry makes this call and resolves the row if and only if
      the vendor takes it. */
  ghost predicate MadeGoodBy(w: World, id: FailureId, replay: OutboundRetry.Replay, actor: Actor, o: OutboundRetry.RepairOracle)
    requires w.db.Valid()
  {
    && id < |w.db.failures|
    && (w.db.failures[id].status != Resolved ==>
          RepairsExactlyBy(w, id, replay, if replay.AddWorkNote? then Unavailable else BadRequest, actor, o))
  }

  /** A row's contents stay, so it can be made good at any later time. */
  lemma HeldRowStaysRepairable(w: World, id: FailureId, db: Db, l: LineId, held: bool, calls: seq<Call>, actor: Actor, o: OutboundRetry.RepairOracle)
    requires Kept(w) && w.db.Valid() && id < |w.db.failures|
    requires db.Valid() && l in db.lines && Addressed(db, l, held) && RowHolds(w.db.failures[id], db, l, held)
    ensures MadeGoodBy(Run(w, calls), id, MissedCall(db, l, held), actor, o)
  {
    hide Kept, RepairsExactlyBy, MissedCall, Addressed, RowHolds, Db.Valid, Run, QueueDecisions.Attempts, QueueDecisions.Extra;
    RunKeepsQueue(w, calls, id);
    var after := Run(w, calls);
    if after.db.failures[id].status != Resolved {
      HeldRowIsRepairable(after, id, w.db.failures[id], db, l, held, actor, o);
    }
  }

  lemma StepIsTheAssign(w: World, call: A.AssignCall, answers: A.Oracle)
    requires w.db.Valid()
    ensures Step(w, AssignLine(call, answers)) == A.Outcome(w, call, answers).0
  {
    hide A.Outcome, Db.Valid;
  }

  /** Whatever happens after an assign queued a row, the row is made good by the very call that
      was missed: a hold by a hold, a close by a close, a note by a note. */
  lemma QueuedWritesStayRepairable(w: World, call: A.AssignCall, answers: A.Oracle, calls: seq<Call>, actor: Actor, o: OutboundRetry.RepairOracle)
    requires Kept(w) && w.db.Valid() && A.Outcome(w, call, answers).0.db.failures != w.db.failures
    ensures call.lineId in w.db.lines && Addressed(w.db, call.lineId, A.Outcome(w, call, answers).1.Blocked?)
    ensures MadeGoodBy(Run(Step(w, AssignLine(call, answers)), calls), |w.db.failures|,
                       MissedCall(w.db, call.lineId, A.Outcome(w, call, answers).1.Blocked?), actor, o)
  {
    hide Step, A.Outcome, Kept, MadeGoodBy, MissedCall, Addressed, RowHolds, RowSteps, Admitted, Orphans, Db.Valid, Run;
    var id := |w.db.failures|;
    var assign := AssignLine(call, answers);
    QueuedRowHolds(w, call, answers);
    StepKeepsQueue(w, assign, id);
    StepIsTheAssign(w, call, answers);
    HeldRowStaysRepairable(Step(w, assign), id, w.db, call.lineId, A.Outcome(w, call, answers).1.Blocked?, calls, actor, o);
  }

  // ── a mail ──

  lemma MailIsStored(w: World, to: string, template: string)
    requires w.db.Valid()
    ensures Step(w, QueueNotification(to, template)) == w.(db := w.db.(failures := w.db.failures + [MailRow(to, template)]))
  {
    hide FailureQueue.NewFailure, MailRow, Db.Valid;
    MailRowIsStored(to, template);
  }

  /** While it is not resolved a queued mail is sent again if and only if it has a recipient, is the
      one template without parameters, and is taken. */
  lemma MailIsRepairedExactlyWhen(w: World, id: FailureId, to: string, template: string, actor: Actor, o: OutboundRetry.RepairOracle)
    requires w.db.Valid() && id < |w.db.failures| && w.db.failures[id].status != Resolved
    requires w.db.failures[id].kind == Notification && w.db.failures[id].payload == MailRow(to, template).payload
    ensures OutboundRetry.Retry(w, id, actor, o).1 == None <==>
      to != "" && template == "connectivity-check" && OutboundRetry.Send(to, template) in o.accepted
  {
    QueueFields.MailIsReplayedExactlyWhen(w.db.failures[id]);
    hide Db.Valid, OutboundRetry.ReplayOf;
  }

  /** And so it is after any calls. */
  lemma QueuedMailStaysRepairable(w: World, to: string, template: string, calls: seq<Call>, actor: Actor, o: OutboundRetry.RepairOracle)
    requires Kept(w) && w.db.Valid()
    ensures var after := Run(Step(w, QueueNotification(to, template)), calls); var id := |w.db.failures|;
      && id < |after.db.failures|
      && (after.db.failures[id].status != Resolved ==>
            (OutboundRetry.Retry(after, id, actor, o).1 == None <==>
               to != "" && template == "connectivity-check" && OutboundRetry.Send(to, template) in o.accepted))
  {
    hide Step, Kept, RowSteps, Admitted, Orphans, Db.Valid, Run, OutboundRetry.Retry;
    var id := |w.db.failures|;
    MailIsStored(w, to, template);
    var queued := Step(w, QueueNotification(to, template));
    StepKeepsQueue(w, QueueNotification(to, template), id);
    MailRowStays(queued, calls, id);
    var after := Run(queued, calls);
    if after.db.failures[id].status != Resolved {
      MailIsRepairedExactlyWhen(after, id, to, template, actor, o);
    }
  }

  lemma MailRowStays(w: World, calls: seq<Call>, id: FailureId)
    requires Kept(w) && w.db.Valid() && id < |w.db.failures|
    ensures var after := Run(w, calls);
      id < |after.db.failures| && after.db.failures[id].kind == w.db.failures[id].kind && after.db.failures[id].payload == w.db.failures[id].payload
  {
    hide Kept, Run, Db.Valid, QueueDecisions.Attempts, QueueDecisions.Extra;
    RunKeepsQueue(w, calls, id);
  }
}
