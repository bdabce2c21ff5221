/** Everything an assign that goes through writes, here and outside. */
module AssignWrites {
  import opened Wrappers
  import opened Stages
  import opened Database
  import opened Outside
  import opened Terms
  import A = Assign
  import AssignLaws
  import AssignReport
  import QueuedWrites

  /** What the holding check answered. */
  function Answered(w: World, l: LineId, o: A.Oracle): HoldingStatus
    requires w.db.Valid() && l in w.db.lines
  {
    if o.holdingReadThrows then Unknown else if AssignLaws.SeenHeld(w, l, o) then Held else NotHeld
  }

  /** The timeline note about the write-back is there unless it could not be written, or had nothing to say. */
  predicate Noted(db: Db, l: LineId, o: A.Oracle)
    requires db.Valid() && l in db.lines
  {
    var line := db.lines[l];
    !o.timelineNoteFails &&
    (Filled(line.serviceNowSysId) || !Filled(db.requests[line.requestId].serviceNowSysId) || o.workNote != A.WorkNoteThrows(""))
  }

  /** One line assigned and dated, one seat charged unless the licence was held, one timeline row
      and at most a note, one status, and the queue. */
  ghost predicate Settled(db: Db, after: Db, l: LineId, holding: HoldingStatus, o: A.Oracle)
    requires db.Valid() && l in db.lines
  {
    var line := db.lines[l];
    var r := line.requestId;
    var cell := Cell(db.requests[r].opcoId, line.skuCatalogId);
    var row := if cell in db.ledger then db.ledger[cell] else LedgerRow(0, 0);
    && |after.requests| == |db.requests|
    && after == db.(requests := db.requests[r := db.requests[r].(status := after.requests[r].status)],
                    lines := db.lines[l := line.(stage := Assigned, stampedAt := line.stampedAt[Assigned := o.now])],
                    ledger := if holding == Held then db.ledger else db.ledger[cell := row.(assignedQuantity := row.assignedQuantity + 1)],
                    events := db.events + [Event.Assign(r, l, holding)] + (if Noted(db, l, o) then [Note(r)] else []),
                    failures := db.failures + QueuedWrites.QueuedByWriteBack(db, l, o))
  }

  lemma CommitLedger(db: Db, l: LineId, holding: HoldingStatus, now: Time)
    requires db.Valid() && l in db.lines
    ensures var cell := Cell(db.requests[db.lines[l].requestId].opcoId, db.lines[l].skuCatalogId);
      var row := if cell in db.ledger then db.ledger[cell] else LedgerRow(0, 0);
      A.Commit(db, l, holding, now).ledger ==
        if holding == Held then db.ledger else db.ledger[cell := row.(assignedQuantity := row.assignedQuantity + 1)]
  {
    hide StagesOf, StatusOf, Db.Valid;
  }

  lemma SettleWrites(db: Db, l: LineId, holding: HoldingStatus, o: A.Oracle)
    requires db.Valid() && l in db.lines
    ensures Settled(db, A.Settle(db, l, holding, o).0, l, holding, o)
  {
    hide A.Commit, A.WriteBack, A.NoteOutcome, QueuedWrites.QueuedByWriteBack, AssignLaws.TicketReport, Noted, Db.Valid;
    AssignReport.CommitWrites(db, l, holding, o.now);
    CommitLedger(db, l, holding, o.now);
    AssignLaws.SettleReports(db, l, holding, o);
    var committed := A.Commit(db, l, holding, o.now);
    QueuedWrites.SettleQueues(db, l, holding, o);
    QueuedWrites.WriteBackQueues(committed, l, o);
    NoteIsAdded(db, l, A.WriteBack(committed, l, o).0, o);
    SettleIs(db, l, holding, o);
  }

  lemma SettleIs(db: Db, l: LineId, holding: HoldingStatus, o: A.Oracle)
    requires db.Valid() && l in db.lines
    ensures var committed := A.Commit(db, l, holding, o.now); var r := db.lines[l].requestId;
      && r < |A.WriteBack(committed, l, o).0.requests|
      && A.Settle(db, l, holding, o).0 == A.NoteOutcome(A.WriteBack(committed, l, o).0, r, A.Settle(db, l, holding, o).1, o)
  {
    hide A.Commit, A.WriteBack, A.NoteOutcome;
  }

  lemma NoteIsAdded(db: Db, l: LineId, written: Db, o: A.Oracle)
    requires db.Valid() && written.Valid() && l in db.lines && db.lines[l].requestId < |written.requests|
    ensures var r := db.lines[l].requestId;
      A.NoteOutcome(written, r, AssignLaws.TicketReport(db, l, o), o) ==
        written.(events := written.events + (if Noted(db, l, o) then [Note(r)] else []))
  {
    hide Db.Valid;
    assert written.events + [] == written.events;
  }

  /** The whole effect of an assign that goes through: what Settled says of the tables, and a licence
      granted to the request's user unless that user was seen to hold it. */
  lemma DoneWrites(w: World, call: A.AssignCall, o: A.Oracle)
    requires w.db.Valid() && A.Outcome(w, call, o).1.Done?
    ensures call.lineId in w.db.lines
    ensures var after := A.Outcome(w, call, o).0; var line := w.db.lines[call.lineId];
      var upn := w.db.requests[line.requestId].targetUpn; var guid := w.db.catalogue.skus[line.skuCatalogId].skuId;
      && Settled(w.db, after.db, call.lineId, Answered(w, call.lineId, o), o)
      && after == (if AssignLaws.SeenHeld(w, call.lineId, o) then w.(db := after.db)
                   else w.(db := after.db, holdings := w.holdings + {(upn, guid)}, grants := w.grants + [Grant(line.requestId, upn, guid)]))
  {
    hide A.Settle, A.GateSteps, A.VerdictOf, A.HoldTicket, Settled, AssignLaws.SeenHeld, Answered, Db.Valid;
    AnswerMeans(w, call, o);
    DoneIsPerformed(w, call, o);
    SettleWrites(w.db, call.lineId, A.ContextOf(w, call, o).holding, o);
  }

  lemma DoneIsPerformed(w: World, call: A.AssignCall, o: A.Oracle)
    requires w.db.Valid() && A.Outcome(w, call, o).1.Done?
    ensures call.lineId in w.db.lines && A.Outcome(w, call, o) == A.Perform(w, call, A.ContextOf(w, call, o))
  {
    hide A.Perform, A.ContextOf, A.GateSteps, A.VerdictOf, A.HoldTicket, Db.Valid;
  }

  lemma AnswerMeans(w: World, call: A.AssignCall, o: A.Oracle)
    requires w.db.Valid()
    ensures call.lineId in w.db.lines ==>
      && A.ContextOf(w, call, o).holding == Answered(w, call.lineId, o)
      && (Answered(w, call.lineId, o) == Held <==> AssignLaws.SeenHeld(w, call.lineId, o))
  {
    hide Db.Valid, A.Blank;
  }
}
