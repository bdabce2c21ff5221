/** What one assign does to the totals of Seats, and to the licences granted. */
module AssignSeats {
  import opened Wrappers
  import opened Stages
  import opened Database
  import opened Outside
  import opened Assign
  import opened AssignReport
  import opened History
  import opened Seats
  import FailureQueue

  /** An assign writes one ASSIGN row, and at most a note after it. */
  lemma DoneWritesOneRow(w: World, call: AssignCall, o: Oracle)
    requires w.db.Valid() && Outcome(w, call, o).1.Done?
    ensures call.lineId in w.db.lines
    ensures var r := w.db.lines[call.lineId].requestId;
      var rows := w.db.events + [Event.Assign(r, call.lineId, ContextOf(w, call, o).holding)];
      var events := Outcome(w, call, o).0.db.events;
      events == rows || events == rows + [Note(r)]
  {
    hide VerdictOf, GateSteps, HoldTicket, StagesOf, StatusOf, Db.Valid, FailureQueue.NewFailure;
  }

  lemma RefusalMovesNoSeat(w: World, call: AssignCall, o: Oracle)
    requires w.db.Valid() && !Outcome(w, call, o).1.Done?
    ensures SeatsStill(w.db, Outcome(w, call, o).0.db)
    ensures Outcome(w, call, o).0 == w.(db := Outcome(w, call, o).0.db)
  {
    RefusalLeavesTheDomainAlone(w, call, o);
    hide Outcome, Db.Valid;
  }

  lemma MovedLineKeepsCharges(db: Db, after: Db, r: RequestId, l: LineId)
    requires r < |db.requests| && l in db.lines && |after.requests| == |db.requests| && l in after.lines
    requires after.requests == db.requests[r := db.requests[r].(status := after.requests[r].status)]
    requires after.lines == db.lines[l := db.lines[l].(stage := after.lines[l].stage, stampedAt := after.lines[l].stampedAt)]
    ensures ChargesStand(db, after)
  {
  }

  lemma CommitKeepsCharges(db: Db, l: LineId, holding: HoldingStatus, now: Time)
    requires db.Valid() && l in db.lines
    ensures ChargesStand(db, Commit(db, l, holding, now))
    ensures Commit(db, l, holding, now).catalogue == db.catalogue
  {
    CommitWrites(db, l, holding, now);
    hide Commit, ChargesStand, Db.Valid;
    MovedLineKeepsCharges(db, Commit(db, l, holding, now), db.lines[l].requestId, l);
  }

  /** An assign keeps every row that earlier ASSIGN rows charged through. */
  lemma OutcomeKeepsCharges(w: World, call: AssignCall, o: Oracle)
    requires w.db.Valid() && Outcome(w, call, o).1.Done?
    ensures ChargesStand(w.db, Outcome(w, call, o).0.db)
    ensures Outcome(w, call, o).0.db.catalogue == w.db.catalogue
  {
    hide VerdictOf, GateSteps, Commit, Settle, HoldTicket, Db.Valid;
    var holding := ContextOf(w, call, o).holding;
    CommitKeepsCharges(w.db, call.lineId, holding, o.now);
    SettleAddsOnlyRecords(w.db, call.lineId, holding, o);
  }

  /** The ledger and the timeline move together. */
  lemma AssignStaysExplained(w: World, call: AssignCall, o: Oracle, cell: Cell)
    requires w.db.Valid() && AssignsStand(w.db)
    ensures Unexplained(Outcome(w, call, o).0.db, cell) == Unexplained(w.db, cell)
  {
    var after := Outcome(w, call, o).0.db;
    if Outcome(w, call, o).1.Done? {
      DoneMovesOneLineAndOneSeat(w, call, o);
      DoneWritesOneRow(w, call, o);
      OutcomeKeepsCharges(w, call, o);
      hide Outcome, ContextOf;
      var e := Event.Assign(w.db.lines[call.lineId].requestId, call.lineId, ContextOf(w, call, o).holding);
      var rows := w.db.events + [e];
      assert rows[..|w.db.events|] == w.db.events;
      OldChargesStand(w.db, after, w.db.events, cell);
      if after.events != rows {
        assert after.events[..|rows|] == rows;
      }
      hide Db.Valid;
      assert Charges(after, e, cell) <==> e.holding != Held && cell == w.db.CellOf(call.lineId);
      assert Charged(after, rows, cell) == Charged(after, w.db.events, cell) + (if Charges(after, e, cell) then 1 else 0);
    } else {
      RefusalMovesNoSeat(w, call, o);
      StillSeatsStayExplained(w.db, after, cell);
    }
  }

  /** The holding read gave no answer, and the user held the licence all along. */
  predicate Blind(w: World, call: AssignCall, o: Oracle, sku: SkuRowId)
    requires w.db.Valid()
  {
    && Outcome(w, call, o).1.Done?
    && o.holdingReadThrows
    && w.db.lines[call.lineId].skuCatalogId == sku
    && (ContextOf(w, call, o).request.targetUpn, w.db.SkuOf(call.lineId).skuId) in w.holdings
  }

  /** A licence is granted, if at all, to the request's own user. */
  lemma DoneGrantsTheUser(w: World, call: AssignCall, o: Oracle)
    requires w.db.Valid() && Outcome(w, call, o).1.Done?
    ensures var c := ContextOf(w, call, o); var after := Outcome(w, call, o).0;
      && c.request.azureSyncedAt.Some? && c.request.serviceNowUserSyncedAt.Some?
      && (c.holding == Held ==> after.holdings == w.holdings && after.grants == w.grants)
      && (c.holding != Held ==>
            after.holdings == w.holdings + {(c.request.targetUpn, c.sku.skuId)} &&
            after.grants == w.grants + [Grant(c.line.requestId, c.request.targetUpn, c.sku.skuId)])
  {
    hide GateSteps, Settle, HoldTicket, Db.Valid;
    var c := ContextOf(w, call, o);
    assert StopsAt(c, |GATE_KEYS|);
    assert VerdictOf(GATE_KEYS[1], c).Pass? && VerdictOf(GATE_KEYS[2], c).Pass?;
  }

  /** An assign moves the drift by one when it was blind to a licence the user already
      held, and otherwise not at all. */
  lemma AssignDrifts(w: World, call: AssignCall, o: Oracle, sku: SkuRowId)
    requires w.db.Valid() && sku in w.db.catalogue.skus
    ensures var after := Outcome(w, call, o).0;
      && after.db.catalogue == w.db.catalogue
      && Drift(after.db, after.holdings, sku) == Drift(w.db, w.holdings, sku) + (if Blind(w, call, o, sku) then 1 else 0)
  {
    var after := Outcome(w, call, o).0;
    if Outcome(w, call, o).1.Done? {
      DoneMovesOneLineAndOneSeat(w, call, o);
      OutcomeKeepsCharges(w, call, o);
      DoneGrantsTheUser(w, call, o);
      var c := ContextOf(w, call, o);
      var cell := w.db.CellOf(call.lineId);
      hide Outcome;
      if c.holding == Held {
        SeatSumFrame(w.db, after.db, w.db.catalogue.opcos, sku);
      } else {
        OneSeatOneHolder(w.db, after.db, w.holdings, cell, c.request.targetUpn, sku);
      }
    } else {
      RefusalMovesNoSeat(w, call, o);
      hide Outcome;
      SeatSumFrame(w.db, after.db, w.db.catalogue.opcos, sku);
    }
  }
}
