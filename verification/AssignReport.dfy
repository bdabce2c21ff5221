/** What an assign reports back, and what it leaves alone when it does not assign. */
module AssignReport {
  import opened Wrappers
  import opened Stages
  import opened Database
  import opened Outside
  import opened Assign
  import FailureQueue

  /** A refusal lists the gates in order up to the one that stopped the call;
      that one failed, and none before it did. */
  lemma BlockedListsTheGatesReached(w: World, call: AssignCall, o: Oracle)
    requires w.db.Valid() && Outcome(w, call, o).1.Blocked?
    ensures var result := Outcome(w, call, o).1;
      && 0 < |result.steps| <= |GATE_KEYS|
      && (forall i :: 0 <= i < |result.steps| ==> result.steps[i].key == GATE_KEYS[i])
      && result.failedAt == GATE_KEYS[|result.steps| - 1]
      && (forall i :: 0 <= i < |result.steps| ==> (result.steps[i].status == StepFailed <==> i == |result.steps| - 1))
  {
    hide HoldTicket, Settle, Db.Valid;
    var c := ContextOf(w, call, o);
    var n := FirstStop(c, 0);
    assert StopsAt(c, n);
    var steps := GateSteps(c, n + 1);
    forall i | 0 <= i < n ensures steps[i].status != StepFailed {
      assert VerdictOf(GATE_KEYS[i], c).Pass?;
    }
    assert !VerdictOf(GATE_KEYS[n], c).Pass?;
  }

  lemma PassedGatesReport(c: Context, i: nat)
    requires i < |GATE_KEYS| && VerdictOf(GATE_KEYS[i], c).Pass?
    ensures var step := GateSteps(c, |GATE_KEYS|)[i];
      && step.key == GATE_KEYS[i]
      && step.status != StepFailed
      && (step.status == StepOverridden ==> step.key == Budget)
      && (step.status == StepSkipped ==> step.key in {Holding, Seats})
  {
  }

  /** An assign reports all eleven keys in order; only the ServiceNow write-back can
      read as failed, only the budget as overridden. */
  lemma DoneListsEveryStep(w: World, call: AssignCall, o: Oracle)
    requires w.db.Valid() && Outcome(w, call, o).1.Done?
    ensures var steps := Outcome(w, call, o).1.steps;
      && |steps| == |STEP_KEYS|
      && (forall i :: 0 <= i < |steps| ==> steps[i].key == STEP_KEYS[i])
      && (forall i :: 0 <= i < |steps| && steps[i].status == StepFailed ==> steps[i].key == TicketWrite)
      && (forall i :: 0 <= i < |steps| && steps[i].status == StepOverridden ==> steps[i].key == Budget)
      && (forall i :: 0 <= i < |steps| && steps[i].status == StepSkipped ==>
            steps[i].key in {Holding, Seats, AssignLicence, LedgerSeat, TicketWrite})
  {
    hide Db.Valid, Settle, VerdictOf, GateSteps, HoldTicket;
    var c := ContextOf(w, call, o);
    assert StopsAt(c, |GATE_KEYS|);
    var steps := Outcome(w, call, o).1.steps;
    var gates := GateSteps(c, |GATE_KEYS|);
    assert steps == gates + steps[|GATE_KEYS|..];
    forall i | 0 <= i < |steps|
      ensures steps[i].key == STEP_KEYS[i] && (steps[i].status == StepFailed ==> steps[i].key == TicketWrite)
      ensures steps[i].status == StepOverridden ==> steps[i].key == Budget
      ensures steps[i].status == StepSkipped ==> steps[i].key in {Holding, Seats, AssignLicence, LedgerSeat, TicketWrite}
    {
      if i < |GATE_KEYS| {
        PassedGatesReport(c, i);
      } else {
        assert STEP_KEYS[i] == EFFECT_KEYS[i - |GATE_KEYS|];
      }
    }
  }

  /** When a call assigns, and only then: nothing bars it, every gate passes, and the
      user either holds the licence already or is given it. */
  lemma AssignsExactlyWhenEveryGatePasses(w: World, call: AssignCall, o: Oracle)
    requires w.db.Valid()
    ensures Outcome(w, call, o).1.Done? <==>
      && Precheck(w.db, call).None?
      && var c := ContextOf(w, call, o);
         && (forall i :: 0 <= i < |GATE_KEYS| ==> VerdictOf(GATE_KEYS[i], c).Pass?)
         && (c.holding == Held || o.licence == LicenceAssigned || o.licence == LicenceAlreadyAssigned)
  {
    hide HoldTicket, Settle, VerdictOf, GateSteps;
    if Precheck(w.db, call).None? {
      var c := ContextOf(w, call, o);
      assert StopsAt(c, FirstStop(c, 0));
    }
  }

  /** The rows a line's held ticket and the failure queue may add without an assign. */
  ghost predicate OnlyHeldOrQueued(before: Db, after: Db, l: LineId)
    requires l in before.lines
  {
    && after == before.(lines := after.lines, failures := after.failures)
    && before.failures <= after.failures && |after.failures| <= |before.failures| + 1
    && exists held :: after.lines == before.lines[l := before.lines[l].(ticketHeldAt := held)]
  }

  lemma BudgetNeverThrows(c: Context)
    ensures VerdictOf(Budget, c) != Crash
  {
  }

  lemma HoldTicketOnlyHoldsOrQueues(db: Db, l: LineId, o: Oracle)
    requires db.Valid() && l in db.lines
    ensures OnlyHeldOrQueued(db, HoldTicket(db, l, o), l)
  {
    hide Db.Valid, FailureQueue.NewFailure;
    var item := db.lines[l];
    var after := HoldTicket(db, l, o);
    if Truthy(item.serviceNowSysId) && item.ticketHeldAt.None? && o.ticket == TicketUpdated {
      assert after.lines == db.lines[l := item.(ticketHeldAt := Some(o.now))];
    } else {
      assert after.lines == db.lines[l := item.(ticketHeldAt := item.ticketHeldAt)];
    }
  }

  /** A call that does not assign leaves every stage, seat count, status, timeline and
      licence as it was; only a budget refusal may mark the ticket held or queue a write. */
  lemma RefusalLeavesTheDomainAlone(w: World, call: AssignCall, o: Oracle)
    requires w.db.Valid() && !Outcome(w, call, o).1.Done?
    ensures var (after, result) := Outcome(w, call, o);
      && after == w.(db := after.db)
      && (result.Thrown? || result.failedAt != Budget ==> after == w)
      && (after != w ==> call.lineId in w.db.lines && OnlyHeldOrQueued(w.db, after.db, call.lineId))
  {
    hide Settle, VerdictOf, GateSteps, Db.Valid;
    var (after, result) := Outcome(w, call, o);
    if Precheck(w.db, call).None? {
      var c := ContextOf(w, call, o);
      var n := FirstStop(c, 0);
      BudgetNeverThrows(c);
      if n == 5 {
        HoldTicketOnlyHoldsOrQueues(w.db, call.lineId, o);
      }
    }
  }

  /** What the tables look like after an assign. */
  ghost predicate OneLineAssigned(before: Db, after: Db, l: LineId, holding: HoldingStatus, now: Time)
    requires before.Valid() && l in before.lines
  {
    var item := before.lines[l];
    && after.lines == before.lines[l := item.(stage := Assigned, stampedAt := item.stampedAt[Assigned := now])]
    && (forall cell :: after.AssignedQuantity(cell) ==
          before.AssignedQuantity(cell) + (if cell == before.CellOf(l) && holding != Held then 1 else 0))
    && (forall cell :: after.AllocatedQuantity(cell) == before.AllocatedQuantity(cell))
    && Event.Assign(item.requestId, l, holding) in after.events
  }

  /** The transaction writes one line, one status, one timeline row and at most one ledger row. */
  lemma CommitWrites(db: Db, l: LineId, holding: HoldingStatus, now: Time)
    requires db.Valid() && l in db.lines
    ensures var after := Commit(db, l, holding, now); var r := db.lines[l].requestId;
      && r < |db.requests| && |after.requests| == |db.requests|
      && after == db.(requests := after.requests, lines := after.lines, ledger := after.ledger, events := after.events)
      && after.requests == db.requests[r := db.requests[r].(status := after.requests[r].status)]
      && after.lines == db.lines[l := db.lines[l].(stage := Assigned, stampedAt := db.lines[l].stampedAt[Assigned := now])]
      && after.events == db.events + [Event.Assign(r, l, holding)]
  {
    hide StagesOf, StatusOf, Db.AssignedQuantity, Db.AllocatedQuantity, Db.CellOf;
  }

  lemma CommitMovesOneLineAndOneSeat(db: Db, l: LineId, holding: HoldingStatus, now: Time)
    requires db.Valid() && l in db.lines
    ensures OneLineAssigned(db, Commit(db, l, holding, now), l, holding, now)
  {
    hide StagesOf, StatusOf, Db.Valid;
    var after := Commit(db, l, holding, now);
    assert after.events[|after.events| - 1] == Event.Assign(db.lines[l].requestId, l, holding);
  }

  /** The write-back and its note add queue rows and timeline rows, nothing else. */
  lemma SettleAddsOnlyRecords(db: Db, l: LineId, holding: HoldingStatus, o: Oracle)
    requires db.Valid() && l in db.lines
    ensures var committed := Commit(db, l, holding, o.now); var settled := Settle(db, l, holding, o).0;
      && settled == committed.(events := settled.events, failures := settled.failures)
      && (settled.events == committed.events || settled.events == committed.events + [Note(db.lines[l].requestId)])
  {
    hide Commit, Db.Valid, FailureQueue.NewFailure, TicketUpdatePayload, AssignNote;
  }

  /** An assign moves its line to ASSIGNED and its ledger cell by one seat, or by none
      when the user already held the licence; every other line and cell stays put. */
  lemma DoneMovesOneLineAndOneSeat(w: World, call: AssignCall, o: Oracle)
    requires w.db.Valid() && Outcome(w, call, o).1.Done?
    ensures call.lineId in w.db.lines
    ensures OneLineAssigned(w.db, Outcome(w, call, o).0.db, call.lineId, ContextOf(w, call, o).holding, o.now)
  {
    hide VerdictOf, GateSteps, Commit, Settle, HoldTicket;
    var c := ContextOf(w, call, o);
    var after := Outcome(w, call, o).0.db;
    assert after == Settle(w.db, call.lineId, c.holding, o).0;
    SettledMovesOneLineAndOneSeat(w.db, call.lineId, c.holding, o);
    hide Outcome, OneLineAssigned, ContextOf;
  }

  lemma SettledMovesOneLineAndOneSeat(db: Db, l: LineId, holding: HoldingStatus, o: Oracle)
    requires db.Valid() && l in db.lines
    ensures OneLineAssigned(db, Settle(db, l, holding, o).0, l, holding, o.now)
  {
    CommitMovesOneLineAndOneSeat(db, l, holding, o.now);
    SettleAddsOnlyRecords(db, l, holding, o);
    hide Commit, Settle, OneLineAssigned, Db.Valid;
    RecordsChangeNoSeat(db, Commit(db, l, holding, o.now), Settle(db, l, holding, o).0, l, holding, o.now);
  }

  lemma RecordsChangeNoSeat(before: Db, committed: Db, after: Db, l: LineId, holding: HoldingStatus, now: Time)
    requires before.Valid() && l in before.lines && OneLineAssigned(before, committed, l, holding, now)
    requires after == committed.(events := after.events, failures := after.failures) && committed.events <= after.events
    ensures OneLineAssigned(before, after, l, holding, now)
  {
    hide Db.Valid;
    assert forall e :: e in committed.events ==> e in after.events;
    assert forall cell :: after.AssignedQuantity(cell) == committed.AssignedQuantity(cell);
    assert forall cell :: after.AllocatedQuantity(cell) == committed.AllocatedQuantity(cell);
  }
}
