/**
  When an assign goes through, where it stops, and what it reports, said on the tables and
  on the answers of the outside world.
 */
module AssignLaws {
  import opened Wrappers
  import opened Stages
  import opened Database
  import opened Outside
  import opened Terms
  import A = Assign
  import AssignReport

  /** The call names a line the actor may touch, and an override only as it may be used. */
  predicate Proper(db: Db, call: A.AssignCall)
    requires db.Valid()
  {
    && call.lineId in db.lines
    && MayTouch(call.actor, db.requests[db.lines[call.lineId].requestId].opcoId)
    && (call.budgetOverrideReason.Some? ==> call.actor.isAdmin && Wordy(call.budgetOverrideReason.value))
  }

  /** The tenant shows the target user with this licence. */
  predicate SeenHeld(w: World, l: LineId, o: A.Oracle)
    requires w.db.Valid() && l in w.db.lines
  {
    var line := w.db.lines[l];
    !o.holdingReadThrows && (w.db.requests[line.requestId].targetUpn, w.db.catalogue.skus[line.skuCatalogId].skuId) in w.holdings
  }

  /** The OpCo has one more seat of this SKU in its allocation; without a row it has none. */
  predicate SeatInBudget(db: Db, l: LineId)
    requires db.Valid() && l in db.lines
  {
    var cell := Cell(db.requests[db.lines[l].requestId].opcoId, db.lines[l].skuCatalogId);
    cell in db.ledger && db.ledger[cell].assignedQuantity + 1 <= db.ledger[cell].allocatedQuantity
  }

  /** The tenant lists this SKU with one more unit to assign. */
  predicate UnitLeft(sku: Sku, tenant: A.TenantSkus) {
    tenant.Listed? && sku.skuId in tenant.counts && tenant.counts[sku.skuId].consumedUnits + 1 <= tenant.counts[sku.skuId].assignableUnits
  }

  /** What each gate asks of the rows and of the outside world. */
  predicate Holds(key: A.StepKey, w: World, call: A.AssignCall, o: A.Oracle)
    requires w.db.Valid() && call.lineId in w.db.lines
  {
    var line := w.db.lines[call.lineId];
    var request := w.db.requests[line.requestId];
    var sku := w.db.catalogue.skus[line.skuCatalogId];
    match key
    case StageGate => line.stage == Ready
    case SyncAzure => request.azureSyncedAt != None
    case SyncServiceNow => request.serviceNowUserSyncedAt != None
    case Directory => o.user.UserFound?
    case UsageLocation =>
      if call.usageLocationOverride.Some? then call.usageLocationOverride.value != ""
      else o.user.UserFound? && o.user.usageLocation.Some? && o.user.usageLocation.value != ""
    case Budget => SeatInBudget(w.db, call.lineId) || call.budgetOverrideReason.Some?
    case Seats => SeenHeld(w, call.lineId, o) || sku.unlimited || UnitLeft(sku, o.tenantSkus)
    case _ => true
  }

  /** The call leaves the user with the licence: held already, or given now. */
  predicate Licensed(w: World, l: LineId, o: A.Oracle)
    requires w.db.Valid() && l in w.db.lines
  {
    SeenHeld(w, l, o) || o.licence == A.LicenceAssigned || o.licence == A.LicenceAlreadyAssigned
  }

  // ── the services' own tests decide just that ──

  lemma PrecheckMeans(db: Db, call: A.AssignCall)
    requires db.Valid()
    ensures A.Precheck(db, call).None? <==> Proper(db, call)
  {
    if call.lineId in db.lines {
      ScopeMeans(call.actor, db.requests[db.lines[call.lineId].requestId].opcoId);
    }
    if call.budgetOverrideReason.Some? {
      BlankMeans(call.budgetOverrideReason.value);
    }
    hide Wordy, A.Blank, MayTouch, InScope;
  }

  lemma GateMeans(key: A.StepKey, w: World, call: A.AssignCall, o: A.Oracle)
    requires w.db.Valid() && Proper(w.db, call) && key in A.GATE_KEYS
    ensures A.VerdictOf(key, A.ContextOf(w, call, o)).Pass? <==> Holds(key, w, call, o)
  {
    if call.budgetOverrideReason.Some? {
      BlankMeans(call.budgetOverrideReason.value);
    }
    hide Wordy, A.Blank, MayTouch, Db.Valid;
  }

  lemma FirstStopMeans(w: World, call: A.AssignCall, o: A.Oracle)
    requires w.db.Valid() && Proper(w.db, call)
    ensures var n := A.FirstStop(A.ContextOf(w, call, o), 0);
      && n <= 8
      && (forall i :: 0 <= i < n ==> Holds(A.GATE_KEYS[i], w, call, o))
      && (n < 8 ==> !Holds(A.GATE_KEYS[n], w, call, o))
  {
    forall i | 0 <= i < 8 ensures A.VerdictOf(A.GATE_KEYS[i], A.ContextOf(w, call, o)).Pass? <==> Holds(A.GATE_KEYS[i], w, call, o) {
      GateMeans(A.GATE_KEYS[i], w, call, o);
    }
    hide A.VerdictOf, A.ContextOf, Holds, Proper, Db.Valid;
  }

  /** The condition under which an assign goes through, written out. */
  predicate Assignable(w: World, call: A.AssignCall, o: A.Oracle)
    requires w.db.Valid()
  {
    && Proper(w.db, call)
    && Holds(A.StageGate, w, call, o)
    && Holds(A.SyncAzure, w, call, o)
    && Holds(A.SyncServiceNow, w, call, o)
    && Holds(A.Directory, w, call, o)
    && Holds(A.UsageLocation, w, call, o)
    && Holds(A.Budget, w, call, o)
    && Holds(A.Seats, w, call, o)
    && Licensed(w, call.lineId, o)
  }

  lemma AllGates()
    ensures A.GATE_KEYS == [A.StageGate, A.SyncAzure, A.SyncServiceNow, A.Directory, A.UsageLocation, A.Budget, A.Holding, A.Seats]
  {
  }

  /** An assign goes through if and only if: the actor may touch the line, an override is an
      admin's and says why, the line is READY, both gates are open, the directory has the user,
      a usage location is known, a seat is left in the allocation or overridden, a unit is left
      in the tenant unless the licence is held or the SKU unlimited, and the licence call works. */
  lemma AssignsExactlyWhen(w: World, call: A.AssignCall, o: A.Oracle)
    requires w.db.Valid()
    ensures A.Outcome(w, call, o).1.Done? <==> Assignable(w, call, o)
  {
    PrecheckMeans(w.db, call);
    AllGates();
    if Proper(w.db, call) {
      FirstStopMeans(w, call, o);
      hide A.Settle, A.HoldTicket, A.GateSteps, A.VerdictOf, A.FirstStop, Holds, Proper, Db.Valid;
      assert A.Outcome(w, call, o).1.Done? ==> A.FirstStop(A.ContextOf(w, call, o), 0) == 8;
      if A.FirstStop(A.ContextOf(w, call, o), 0) == 8 {
        assert forall i :: 0 <= i < 8 ==> Holds(A.GATE_KEYS[i], w, call, o);
        assert Holds(A.GATE_KEYS[0], w, call, o) && Holds(A.GATE_KEYS[1], w, call, o) && Holds(A.GATE_KEYS[2], w, call, o)
            && Holds(A.GATE_KEYS[3], w, call, o) && Holds(A.GATE_KEYS[4], w, call, o) && Holds(A.GATE_KEYS[5], w, call, o)
            && Holds(A.GATE_KEYS[7], w, call, o);
      } else {
        HoldingNeverStops(w, call, o);
      }
    }
  }

  lemma HoldingNeverStops(w: World, call: A.AssignCall, o: A.Oracle)
    requires w.db.Valid() && call.lineId in w.db.lines
    ensures Holds(A.Holding, w, call, o)
  {
  }

  /** A licence that was not seen held is taken from the tenant's units, if the SKU is metered. */
  lemma NewLicencesTakeAUnit(w: World, call: A.AssignCall, o: A.Oracle)
    requires w.db.Valid() && A.Outcome(w, call, o).1.Done?
    ensures call.lineId in w.db.lines
    ensures A.ContextOf(w, call, o).holding.Held? <==> SeenHeld(w, call.lineId, o)
    ensures var sku := w.db.catalogue.skus[w.db.lines[call.lineId].skuCatalogId];
      SeenHeld(w, call.lineId, o) || sku.unlimited || UnitLeft(sku, o.tenantSkus)
  {
    AssignsExactlyWhen(w, call, o);
    HoldingMeans(w, call, o);
    SeatsGateMeans(w, call, o);
    hide A.Outcome, A.ContextOf, Holds, Licensed, SeenHeld, UnitLeft, MayTouch, Wordy, Db.Valid;
  }

  lemma HoldingMeans(w: World, call: A.AssignCall, o: A.Oracle)
    requires w.db.Valid()
    ensures call.lineId in w.db.lines ==> (A.ContextOf(w, call, o).holding.Held? <==> SeenHeld(w, call.lineId, o))
  {
    hide Db.Valid, Db.AssignedQuantity, Db.AllocatedQuantity, A.Blank;
  }

  lemma SeatsGateMeans(w: World, call: A.AssignCall, o: A.Oracle)
    requires w.db.Valid()
    ensures call.lineId in w.db.lines && Holds(A.Seats, w, call, o) ==>
      var sku := w.db.catalogue.skus[w.db.lines[call.lineId].skuCatalogId];
      SeenHeld(w, call.lineId, o) || sku.unlimited || UnitLeft(sku, o.tenantSkus)
  {
    hide SeenHeld, UnitLeft;
  }

  // ── where it stops, and what it reports ──

  /** What a gate that lets the call through reports. */
  function Reported(key: A.StepKey, w: World, l: LineId, o: A.Oracle): A.StepStatus
    requires w.db.Valid() && l in w.db.lines
  {
    match key
    case Budget => if SeatInBudget(w.db, l) then A.StepOk else A.StepOverridden
    case Holding => if o.holdingReadThrows || SeenHeld(w, l, o) then A.StepSkipped else A.StepOk
    case Seats => if SeenHeld(w, l, o) || w.db.catalogue.skus[w.db.lines[l].skuCatalogId].unlimited then A.StepSkipped else A.StepOk
    case _ => A.StepOk
  }

  /** The eight gates in the order they are asked. */
  const GATES: seq<A.StepKey> :=
    [A.StageGate, A.SyncAzure, A.SyncServiceNow, A.Directory, A.UsageLocation, A.Budget, A.Holding, A.Seats]

  /** The reports of the first `n` gates. */
  function Reports(w: World, l: LineId, o: A.Oracle, n: nat): seq<A.Step>
    requires w.db.Valid() && l in w.db.lines && n <= 8
  {
    seq(n, i requires 0 <= i < n => A.Step(GATES[i], Reported(GATES[i], w, l, o)))
  }

  lemma GateReports(key: A.StepKey, w: World, call: A.AssignCall, o: A.Oracle)
    requires w.db.Valid() && Proper(w.db, call) && key in A.GATE_KEYS
    ensures Holds(key, w, call, o) ==>
      A.VerdictOf(key, A.ContextOf(w, call, o)) == A.Pass(Reported(key, w, call.lineId, o))
    ensures A.VerdictOf(key, A.ContextOf(w, call, o)).Crash? <==>
      !Holds(key, w, call, o) && ((key == A.Directory && o.user.LookupThrows?) || (key == A.Seats && o.tenantSkus.ListThrows?))
  {
    GateMeans(key, w, call, o);
    if call.budgetOverrideReason.Some? {
      BlankMeans(call.budgetOverrideReason.value);
    }
    hide Wordy, A.Blank, MayTouch, Db.Valid;
  }

  lemma GateStepsMean(w: World, call: A.AssignCall, o: A.Oracle, n: nat)
    requires w.db.Valid() && Proper(w.db, call) && n <= 8
    requires forall i :: 0 <= i < n ==> Holds(GATES[i], w, call, o)
    ensures A.GateSteps(A.ContextOf(w, call, o), n) == Reports(w, call.lineId, o, n)
    ensures n < 8 && !Holds(GATES[n], w, call, o) ==>
      A.GateSteps(A.ContextOf(w, call, o), n + 1) == Reports(w, call.lineId, o, n) + [A.Step(GATES[n], A.StepFailed)]
  {
    AllGates();
    forall i | 0 <= i < 8
      ensures Holds(GATES[i], w, call, o) ==>
        A.VerdictOf(GATES[i], A.ContextOf(w, call, o)) == A.Pass(Reported(GATES[i], w, call.lineId, o))
      ensures !Holds(GATES[i], w, call, o) ==> !A.VerdictOf(GATES[i], A.ContextOf(w, call, o)).Pass?
    {
      GateReports(GATES[i], w, call, o);
      GateMeans(GATES[i], w, call, o);
    }
    hide A.VerdictOf, A.ContextOf, Holds, Reported, Proper, Db.Valid;
  }

  /** A call that is not proper is refused before any gate, and nothing happens. */
  lemma ImproperCallsThrow(w: World, call: A.AssignCall, o: A.Oracle)
    requires w.db.Valid() && !Proper(w.db, call)
    ensures A.Outcome(w, call, o) == (w, A.Thrown(
      if call.lineId !in w.db.lines then NotFound
      else if !MayTouch(call.actor, w.db.requests[w.db.lines[call.lineId].requestId].opcoId) then Forbidden
      else if !call.actor.isAdmin then Forbidden
      else BadRequest))
  {
    PrecheckMeans(w.db, call);
    if call.lineId in w.db.lines {
      ScopeMeans(call.actor, w.db.requests[w.db.lines[call.lineId].requestId].opcoId);
    }
    hide Wordy, A.Blank, MayTouch, InScope, A.Perform, A.FirstStop, A.ContextOf;
  }

  /** A proper call stops at the first gate that does not hold, and nowhere else: blocked there
      with the gates before it reported, or thrown when the outside world gave no answer. */
  lemma StopsExactlyWhere(w: World, call: A.AssignCall, o: A.Oracle, n: nat)
    requires w.db.Valid() && Proper(w.db, call) && n < 8
    requires (forall i :: 0 <= i < n ==> Holds(GATES[i], w, call, o)) && !Holds(GATES[n], w, call, o)
    ensures A.Outcome(w, call, o).1 ==
      if (GATES[n] == A.Directory && o.user.LookupThrows?) || (GATES[n] == A.Seats && o.tenantSkus.ListThrows?) then A.Thrown(Unavailable)
      else A.Blocked(GATES[n], Reports(w, call.lineId, o, n) + [A.Step(GATES[n], A.StepFailed)])
  {
    AllGates();
    PrecheckMeans(w.db, call);
    FirstStopIs(w, call, o, n);
    GateReports(GATES[n], w, call, o);
    GateStepsMean(w, call, o, n);
    hide A.Settle, A.HoldTicket, A.GateSteps, A.VerdictOf, A.FirstStop, A.ContextOf, Holds, Proper, Reports, Db.Valid;
  }

  lemma FirstStopIs(w: World, call: A.AssignCall, o: A.Oracle, n: nat)
    requires w.db.Valid() && Proper(w.db, call) && n <= 8
    requires (forall i :: 0 <= i < n ==> Holds(GATES[i], w, call, o)) && (n < 8 ==> !Holds(GATES[n], w, call, o))
    ensures A.FirstStop(A.ContextOf(w, call, o), 0) == n
  {
    AllGates();
    forall i | 0 <= i < 8 ensures A.VerdictOf(A.GATE_KEYS[i], A.ContextOf(w, call, o)).Pass? <==> Holds(GATES[i], w, call, o) {
      GateMeans(A.GATE_KEYS[i], w, call, o);
    }
    hide A.VerdictOf, A.ContextOf, Holds, Proper, Db.Valid;
    A.StopIsUnique(A.ContextOf(w, call, o), n);
  }

  /** With every gate passed a licence call that does not work throws, and nothing happens. */
  lemma UnlicensedCallsThrow(w: World, call: A.AssignCall, o: A.Oracle)
    requires w.db.Valid() && Proper(w.db, call)
    requires (forall i :: 0 <= i < 8 ==> Holds(GATES[i], w, call, o)) && !Licensed(w, call.lineId, o)
    ensures A.Outcome(w, call, o) == (w, A.Thrown(Unavailable))
  {
    AllGates();
    PrecheckMeans(w.db, call);
    FirstStopIs(w, call, o, 8);
    hide A.Settle, A.HoldTicket, A.GateSteps, A.VerdictOf, A.FirstStop, Holds, Proper, Db.Valid;
  }

  /** How the ServiceNow write-back of an assign reports: a RITM is closed, or else the parent
      record is told, or there is nothing to tell. */
  function TicketReport(db: Db, l: LineId, o: A.Oracle): A.StepStatus
    requires db.Valid() && l in db.lines
  {
    var line := db.lines[l];
    var request := db.requests[line.requestId];
    if line.serviceNowSysId != None && line.serviceNowSysId != Some("") then A.StepOk
    else if request.serviceNowSysId != None && request.serviceNowSysId != Some("") then
      if o.workNote.WorkNoteAdded? then A.StepOk else A.StepFailed
    else A.StepSkipped
  }

  lemma SettleReports(db: Db, l: LineId, holding: HoldingStatus, o: A.Oracle)
    requires db.Valid() && l in db.lines
    ensures A.Settle(db, l, holding, o).1 == TicketReport(db, l, o)
  {
    hide A.Commit, A.WriteBack, A.NoteOutcome, Db.Valid;
    AssignReport.CommitWrites(db, l, holding, o.now);
    var committed := A.Commit(db, l, holding, o.now);
    WriteBackReports(committed, l, o);
  }

  lemma WriteBackReports(db: Db, l: LineId, o: A.Oracle)
    requires db.Valid() && l in db.lines
    ensures A.WriteBack(db, l, o).1 == TicketReport(db, l, o)
  {
    hide A.AssignNote, A.TicketUpdatePayload, Db.Valid;
  }

  /** An assign that goes through reports every gate, then the licence, the ledger and the ticket. */
  lemma DoneReports(w: World, call: A.AssignCall, o: A.Oracle)
    requires w.db.Valid() && A.Outcome(w, call, o).1.Done?
    ensures call.lineId in w.db.lines
    ensures var effect := if SeenHeld(w, call.lineId, o) then A.StepSkipped else A.StepOk;
      A.Outcome(w, call, o).1.steps == Reports(w, call.lineId, o, 8) +
        [A.Step(A.AssignLicence, effect), A.Step(A.LedgerSeat, effect), A.Step(A.TicketWrite, TicketReport(w.db, call.lineId, o))]
  {
    PrecheckMeans(w.db, call);
    FirstStopMeans(w, call, o);
    AllGates();
    assert A.FirstStop(A.ContextOf(w, call, o), 0) == 8 by {
      hide A.Settle, A.HoldTicket, A.GateSteps, A.VerdictOf, A.FirstStop, Holds, Proper, Db.Valid;
    }
    GateStepsMean(w, call, o, 8);
    SettleReports(w.db, call.lineId, A.ContextOf(w, call, o).holding, o);
    hide A.Settle, A.HoldTicket, A.GateSteps, A.VerdictOf, A.FirstStop, Holds, Proper, Reports, TicketReport, Db.Valid;
  }
}
