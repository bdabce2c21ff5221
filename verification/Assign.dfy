/**
  Assigning a READY line: eight gates in order, the licence call, one transaction,
  the ServiceNow write-back (apps/api/src/fulfilment/assign.service.ts,
  assign-step.ts, holding-check.service.ts).
 */
module Assign {
  import opened Wrappers
  import opened Json
  import opened Stages
  import opened Database
  import opened Outside
  import FailureQueue

  datatype StepKey =
    | StageGate | SyncAzure | SyncServiceNow | Directory | UsageLocation | Budget | Holding | Seats
    | AssignLicence | LedgerSeat | TicketWrite

  datatype StepStatus = StepOk | StepFailed | StepSkipped | StepOverridden

  datatype Step = Step(key: StepKey, status: StepStatus)

  const GATE_KEYS: seq<StepKey> :=
    [StageGate, SyncAzure, SyncServiceNow, Directory, UsageLocation, Budget, Holding, Seats]

  const EFFECT_KEYS: seq<StepKey> := [AssignLicence, LedgerSeat, TicketWrite]

  const STEP_KEYS: seq<StepKey> := GATE_KEYS + EFFECT_KEYS

  /** What the caller gets back: an exception, a gate's refusal, or an assigned line. */
  datatype AssignResult =
    | Thrown(error: Error)
    | Blocked(failedAt: StepKey, steps: seq<Step>)
    | Done(steps: seq<Step>)

  datatype UserLookup = LookupThrows | UserNotFound | UserFound(usageLocation: Option<string>)

  datatype SkuCount = SkuCount(prepaidEnabled: nat, assignableUnits: nat, consumedUnits: nat)

  datatype TenantSkus = ListThrows | Listed(counts: map<string, SkuCount>)

  datatype LicenceCall = LicenceThrows | LicenceAssigned | LicenceAlreadyAssigned | LicenceOtherStatus

  datatype TicketAnswer = TicketUpdated | TicketRefused | TicketThrows

  datatype WorkNoteAnswer = WorkNoteAdded | WorkNoteThrows(message: string)

  /** Every answer the outside world gives during one assign. */
  datatype Oracle = Oracle(
    now: Time,
    user: UserLookup,
    holdingReadThrows: bool,
    tenantSkus: TenantSkus,
    licence: LicenceCall,
    ticket: TicketAnswer,
    workNote: WorkNoteAnswer,
    timelineNoteFails: bool
  )

  /** The caller's arguments. */
  datatype AssignCall = AssignCall(
    lineId: LineId,
    usageLocationOverride: Option<string>,
    actor: Actor,
    budgetOverrideReason: Option<string>
  )

  /** A reason that trims to nothing. */
  predicate Blank(s: string) {
    forall c :: c in s ==> c in {' ', '\t', '\n', '\r'}
  }

  /** HoldingCheckService.check: an honest read, or no answer at all. */
  function CheckHolding(holdings: set<(string, string)>, targetUpn: string, skuId: string, readThrows: bool): HoldingStatus {
    if readThrows then Unknown
    else if (targetUpn, skuId) in holdings then Held
    else NotHeld
  }

  /** Everything the gates look at, read before the first of them runs. */
  datatype Context = Context(
    request: Request,
    line: Line,
    sku: Sku,
    allocatedSeats: int,
    assignedBefore: int,
    overriding: bool,
    usageLocationOverride: Option<string>,
    holding: HoldingStatus,
    oracle: Oracle
  ) {
    predicate OverBudget() {
      assignedBefore + 1 > allocatedSeats
    }

    function Location(): Option<string> {
      if usageLocationOverride.Some? then usageLocationOverride
      else if oracle.user.UserFound? then oracle.user.usageLocation
      else None
    }

    /** A seat is free for this SKU in the tenant's inventory. */
    predicate SeatFree(counts: map<string, SkuCount>) {
      && sku.skuId in counts
      && counts[sku.skuId].assignableUnits != 0
      && counts[sku.skuId].consumedUnits < counts[sku.skuId].assignableUnits
    }
  }

  /** A gate lets the call through with a status to report, refuses it, or throws. */
  datatype Verdict = Pass(status: StepStatus) | Refuse | Crash

  function PassIf(ok: bool): Verdict {
    if ok then Pass(StepOk) else Refuse
  }

  function VerdictOf(gate: StepKey, c: Context): Verdict
    requires gate in GATE_KEYS
  {
    match gate
    case StageGate => PassIf(c.line.stage == Ready)
    case SyncAzure => PassIf(c.request.azureSyncedAt.Some?)
    case SyncServiceNow => PassIf(c.request.serviceNowUserSyncedAt.Some?)
    case Directory => if c.oracle.user.LookupThrows? then Crash else PassIf(c.oracle.user.UserFound?)
    case UsageLocation => PassIf(Truthy(c.Location()))
    case Budget => if c.OverBudget() && c.overriding then Pass(StepOverridden) else PassIf(!c.OverBudget())
    case Holding => Pass(if c.holding == NotHeld then StepOk else StepSkipped)
    case Seats =>
      if c.holding == Held || c.sku.unlimited then Pass(StepSkipped)
      else if c.oracle.tenantSkus.ListThrows? then Crash
      else PassIf(c.SeatFree(c.oracle.tenantSkus.counts))
  }

  /** `n` is the first gate that does not pass, or 8 when all do. */
  ghost predicate StopsAt(c: Context, n: nat) {
    && n <= |GATE_KEYS|
    && (forall i :: 0 <= i < n ==> VerdictOf(GATE_KEYS[i], c).Pass?)
    && (n < |GATE_KEYS| ==> !VerdictOf(GATE_KEYS[n], c).Pass?)
  }

  function FirstStop(c: Context, from: nat): (n: nat)
    requires from <= |GATE_KEYS|
    requires forall i :: 0 <= i < from ==> VerdictOf(GATE_KEYS[i], c).Pass?
    ensures StopsAt(c, n)
    decreases |GATE_KEYS| - from
  {
    if from == |GATE_KEYS| || !VerdictOf(GATE_KEYS[from], c).Pass? then from
    else FirstStop(c, from + 1)
  }

  /** What a gate's verdict looks like on the step list. */
  function Report(v: Verdict): StepStatus {
    if v.Pass? then v.status else StepFailed
  }

  /** The reports of the first `n` gates. */
  function GateSteps(c: Context, n: nat): (steps: seq<Step>)
    requires n <= |GATE_KEYS|
    ensures |steps| == n
  {
    seq(n, i requires 0 <= i < n => Step(GATE_KEYS[i], Report(VerdictOf(GATE_KEYS[i], c))))
  }

  /** How a call that stops at gate `n` ends: refused with its step list, or thrown. */
  function RefusalAt(c: Context, n: nat): AssignResult
    requires n < |GATE_KEYS|
  {
    if VerdictOf(GATE_KEYS[n], c).Crash? then Thrown(Unavailable) else Blocked(GATE_KEYS[n], GateSteps(c, n + 1))
  }

  function TicketUpdatePayload(sysId: string, transition: string, note: string): Json {
    Obj(map["snTarget" := Str(sysId), "targetKind" := Str("ritm"), "note" := Str(note), "transition" := Str(transition)])
  }

  function HoldNote(sku: Sku): string {
    "License unavailable for " + sku.skuPartNumber + " — procurement in progress. Item on hold."
  }

  function AssignNote(sku: Sku): string {
    "License " + sku.skuPartNumber + " assigned via platform."
  }

  /** Tell ServiceNow the line waits on procurement, until one such write has landed. */
  function HoldTicket(db: Db, l: LineId, o: Oracle): (after: Db)
    requires db.Valid() && l in db.lines
    ensures after.Valid()
  {
    var item := db.lines[l];
    if !Truthy(item.serviceNowSysId) || item.ticketHeldAt.Some? then db
    else if o.ticket == TicketUpdated then db.(lines := db.lines[l := item.(ticketHeldAt := Some(o.now))])
    else FailureQueue.Recorded(db, TicketUpdate,
           TicketUpdatePayload(item.serviceNowSysId.value, "hold", HoldNote(db.SkuOf(l))), Undefined, Some(item.requestId))
  }

  /** The atomic domain writes: stage, seat count, timeline and status move together. */
  function Commit(db: Db, l: LineId, holding: HoldingStatus, now: Time): (after: Db)
    requires db.Valid() && l in db.lines
    ensures after.Valid() && l in after.lines && after.lines[l].requestId == db.lines[l].requestId
  {
    var r := db.lines[l].requestId;
    var charged := if holding == Held then db else db.ChargeSeat(db.CellOf(l));
    charged.MoveLine(l, Assigned, Event.Assign(r, l, holding), now).Recompute(r)
  }

  /** The ServiceNow write-back and the step status it reports. */
  function WriteBack(db: Db, l: LineId, o: Oracle): (out: (Db, StepStatus))
    requires db.Valid() && l in db.lines
    ensures out.0.Valid() && out.0.lines == db.lines && out.1 != StepOverridden
  {
    var item := db.lines[l];
    var note := AssignNote(db.SkuOf(l));
    if Truthy(item.serviceNowSysId) then
      (if o.ticket == TicketUpdated then db
       else FailureQueue.Recorded(db, TicketUpdate,
              TicketUpdatePayload(item.serviceNowSysId.value, "close", note), Undefined, Some(item.requestId)),
       StepOk)
    else if Truthy(db.requests[item.requestId].serviceNowSysId) then
      if o.workNote.WorkNoteAdded? then (db, StepOk)
      else
        var payload := Obj(map["snTarget" := Str(db.requests[item.requestId].serviceNowSysId.value),
                               "note" := Str(note), "table" := Str("sc_request")]);
        (FailureQueue.Recorded(db, WorkNote, payload, Undefined, Some(item.requestId)), StepFailed)
    else (db, StepSkipped)
  }

  /** The timeline note about the write-back: every status but a wordless failure has one. */
  function NoteOutcome(db: Db, r: RequestId, status: StepStatus, o: Oracle): (after: Db)
    requires db.Valid() && r < |db.requests|
    ensures after.Valid()
  {
    if o.timelineNoteFails || (status == StepFailed && o.workNote == WorkNoteThrows("")) then db
    else db.AddEvent(Note(r))
  }

  /** Everything after the licence call: the transaction, the write-back, its note. */
  function Settle(db: Db, l: LineId, holding: HoldingStatus, o: Oracle): (out: (Db, StepStatus))
    requires db.Valid() && l in db.lines
    ensures out.0.Valid() && out.1 != StepOverridden
  {
    var (written, ticket) := WriteBack(Commit(db, l, holding, o.now), l, o);
    (NoteOutcome(written, written.lines[l].requestId, ticket, o), ticket)
  }

  function ContextOf(w: World, call: AssignCall, o: Oracle): Context
    requires w.db.Valid() && call.lineId in w.db.lines
  {
    var line := w.db.lines[call.lineId];
    var request := w.db.requests[line.requestId];
    var sku := w.db.SkuOf(call.lineId);
    var cell := w.db.CellOf(call.lineId);
    Context(request, line, sku, w.db.AllocatedQuantity(cell), w.db.AssignedQuantity(cell),
            call.budgetOverrideReason.Some? && !Blank(call.budgetOverrideReason.value), call.usageLocationOverride,
            CheckHolding(w.holdings, request.targetUpn, sku.skuId, o.holdingReadThrows), o)
  }

  /** The refusals that come before the first gate and leave no step list. */
  function Precheck(db: Db, call: AssignCall): Option<Error>
    requires db.Valid()
  {
    if call.lineId !in db.lines then Some(NotFound)
    else if !InScope(call.actor, db.requests[db.lines[call.lineId].requestId].opcoId) then Some(Forbidden)
    else if call.budgetOverrideReason.Some? && !call.actor.isAdmin then Some(Forbidden)
    else if call.budgetOverrideReason.Some? && Blank(call.budgetOverrideReason.value) then Some(BadRequest)
    else None
  }

  /** What happens once every gate has passed. */
  function Perform(w: World, call: AssignCall, c: Context): (out: (World, AssignResult))
    requires w.db.Valid() && call.lineId in w.db.lines && c == ContextOf(w, call, c.oracle)
    ensures out.0.db.Valid()
  {
    var l := call.lineId;
    var held := c.holding == Held;
    if !held && c.oracle.licence != LicenceAssigned && c.oracle.licence != LicenceAlreadyAssigned then (w, Thrown(Unavailable))
    else
      var granted := if held then w else w.(
        holdings := w.holdings + {(c.request.targetUpn, c.sku.skuId)},
        grants := w.grants + [Grant(c.line.requestId, c.request.targetUpn, c.sku.skuId)]);
      var (settled, ticket) := Settle(w.db, l, c.holding, c.oracle);
      var effect := if held then StepSkipped else StepOk;
      (granted.(db := settled),
       Done(GateSteps(c, |GATE_KEYS|) + [Step(AssignLicence, effect), Step(LedgerSeat, effect), Step(TicketWrite, ticket)]))
  }

  /** One assign call. */
  function Outcome(w: World, call: AssignCall, o: Oracle): (out: (World, AssignResult))
    requires w.db.Valid()
    ensures out.0.db.Valid()
  {
    var refused := Precheck(w.db, call);
    if refused.Some? then (w, Thrown(refused.value))
    else
      var c := ContextOf(w, call, o);
      var n := FirstStop(c, 0);
      if n == |GATE_KEYS| then Perform(w, call, c)
      else (if GATE_KEYS[n] == Budget then w.(db := HoldTicket(w.db, call.lineId, o)) else w, RefusalAt(c, n))
  }

  /** The gate where a call stops is determined by the verdicts. */
  lemma StopIsUnique(c: Context, n: nat)
    requires StopsAt(c, n)
    ensures FirstStop(c, 0) == n
  {
  }

  /** One more gate has been asked, and its report is appended. */
  lemma PassGate(c: Context, n: nat)
    requires n < |GATE_KEYS|
    ensures GateSteps(c, n + 1) == GateSteps(c, n) + [Step(GATE_KEYS[n], Report(VerdictOf(GATE_KEYS[n], c)))]
  {
  }

  class Service {
    const db: Tables
    const vendors: Vendors

    constructor (db: Tables, vendors: Vendors)
      ensures this.db == db && this.vendors == vendors
    {
      this.db := db;
      this.vendors := vendors;
    }

    method AssignLineItem(call: AssignCall, o: Oracle) returns (result: AssignResult)
      requires db.State().Valid()
      modifies db, vendors
      ensures (WorldOf(db, vendors), result) == Outcome(old(WorldOf(db, vendors)), call, o)
    {
      hide Perform, HoldTicket, GateSteps, VerdictOf, RefusalAt;
      if call.lineId !in db.lines {
        return Thrown(NotFound);
      }
      if !InScope(call.actor, db.requests[db.lines[call.lineId].requestId].opcoId) {
        return Thrown(Forbidden);
      }
      var overriding := call.budgetOverrideReason.Some? && !Blank(call.budgetOverrideReason.value);
      if call.budgetOverrideReason.Some? && !call.actor.isAdmin {
        return Thrown(Forbidden);
      }
      if call.budgetOverrideReason.Some? && !overriding {
        return Thrown(BadRequest);
      }
      ghost var c := ContextOf(WorldOf(db, vendors), call, o);
      var refusal, steps := RunStoredGates(call, o);
      if refusal.Some? {
        return refusal.value;
      }
      refusal, steps := RunUserGates(call, o, steps);
      if refusal.Some? {
        return refusal.value;
      }
      refusal, steps := RunBudgetGate(call, o, steps);
      if refusal.Some? {
        return refusal.value;
      }
      var holding;
      refusal, holding, steps := RunTenantGates(call, o, steps);
      if refusal.Some? {
        return refusal.value;
      }
      result := PerformAssignment(WorldOf(db, vendors), c, call, o, holding, steps);
    }

    /** The gates that read the stored rows: the stage and the two sync gates. */
    method RunStoredGates(call: AssignCall, o: Oracle) returns (refusal: Option<AssignResult>, steps: seq<Step>)
      requires db.State().Valid() && call.lineId in db.lines
      ensures var c := ContextOf(WorldOf(db, vendors), call, o); var n := FirstStop(c, 0);
        if n < 3 then refusal == Some(RefusalAt(c, n)) else refusal == None && steps == GateSteps(c, 3)
    {
      var item := db.lines[call.lineId];
      var request := db.requests[item.requestId];
      ghost var c := ContextOf(WorldOf(db, vendors), call, o);
      steps := [];
      if item.stage != Ready {
        StopIsUnique(c, 0);
        PassGate(c, 0);
        return Some(Blocked(StageGate, steps + [Step(StageGate, StepFailed)])), steps;
      }
      steps := steps + [Step(StageGate, StepOk)];
      PassGate(c, 0);
      if request.azureSyncedAt == None {
        StopIsUnique(c, 1);
        PassGate(c, 1);
        return Some(Blocked(SyncAzure, steps + [Step(SyncAzure, StepFailed)])), steps;
      }
      steps := steps + [Step(SyncAzure, StepOk)];
      PassGate(c, 1);
      if request.serviceNowUserSyncedAt == None {
        StopIsUnique(c, 2);
        PassGate(c, 2);
        return Some(Blocked(SyncServiceNow, steps + [Step(SyncServiceNow, StepFailed)])), steps;
      }
      steps := steps + [Step(SyncServiceNow, StepOk)];
      PassGate(c, 2);
      return None, steps;
    }

    /** The gates about the target user: the directory and the usage location. */
    method RunUserGates(call: AssignCall, o: Oracle, before: seq<Step>) returns (refusal: Option<AssignResult>, steps: seq<Step>)
      requires db.State().Valid() && call.lineId in db.lines
      requires var c := ContextOf(WorldOf(db, vendors), call, o); 3 <= FirstStop(c, 0) && before == GateSteps(c, 3)
      ensures var c := ContextOf(WorldOf(db, vendors), call, o); var n := FirstStop(c, 0);
        if n < 5 then refusal == Some(RefusalAt(c, n)) else refusal == None && steps == GateSteps(c, 5)
    {
      ghost var c := ContextOf(WorldOf(db, vendors), call, o);
      steps := before;
      if o.user.LookupThrows? {
        StopIsUnique(c, 3);
        return Some(Thrown(Unavailable)), steps;
      }
      if o.user.UserNotFound? {
        StopIsUnique(c, 3);
        PassGate(c, 3);
        return Some(Blocked(Directory, steps + [Step(Directory, StepFailed)])), steps;
      }
      steps := steps + [Step(Directory, StepOk)];
      PassGate(c, 3);
      var usageLocation := if call.usageLocationOverride.Some? then call.usageLocationOverride else o.user.usageLocation;
      if !Truthy(usageLocation) {
        StopIsUnique(c, 4);
        PassGate(c, 4);
        return Some(Blocked(UsageLocation, steps + [Step(UsageLocation, StepFailed)])), steps;
      }
      steps := steps + [Step(UsageLocation, StepOk)];
      PassGate(c, 4);
      return None, steps;
    }

    /** The OpCo budget gate; a refusal puts the line's ticket on hold first. */
    method RunBudgetGate(call: AssignCall, o: Oracle, before: seq<Step>) returns (refusal: Option<AssignResult>, steps: seq<Step>)
      requires db.State().Valid() && call.lineId in db.lines
      requires var c := ContextOf(WorldOf(db, vendors), call, o); 5 <= FirstStop(c, 0) && before == GateSteps(c, 5)
      modifies db
      ensures var c := old(ContextOf(WorldOf(db, vendors), call, o));
        if FirstStop(c, 0) == 5 then
          refusal == Some(RefusalAt(c, 5)) && db.State() == HoldTicket(old(db.State()), call.lineId, o)
        else refusal == None && steps == GateSteps(c, 6) && db.State() == old(db.State())
    {
      hide HoldTicket;
      ghost var c := ContextOf(WorldOf(db, vendors), call, o);
      var item := db.lines[call.lineId];
      var cell := Cell(db.requests[item.requestId].opcoId, item.skuCatalogId);
      var allocatedSeats := if cell in db.ledger then db.ledger[cell].allocatedQuantity else 0;
      var assignedBefore := if cell in db.ledger then db.ledger[cell].assignedQuantity else 0;
      var overBudget := assignedBefore + 1 > allocatedSeats;
      PassGate(c, 5);
      if overBudget && !(call.budgetOverrideReason.Some? && !Blank(call.budgetOverrideReason.value)) {
        StopIsUnique(c, 5);
        HoldTicketOnce(call.lineId, o);
        return Some(Blocked(Budget, before + [Step(Budget, StepFailed)])), before;
      }
      steps := before + [Step(Budget, if overBudget then StepOverridden else StepOk)];
      return None, steps;
    }

    /** The holding read and the tenant seat gate. */
    method RunTenantGates(call: AssignCall, o: Oracle, before: seq<Step>)
      returns (refusal: Option<AssignResult>, holding: HoldingStatus, steps: seq<Step>)
      requires db.State().Valid() && call.lineId in db.lines
      requires var c := ContextOf(WorldOf(db, vendors), call, o); 6 <= FirstStop(c, 0) && before == GateSteps(c, 6)
      ensures var c := ContextOf(WorldOf(db, vendors), call, o); var n := FirstStop(c, 0);
        && holding == c.holding
        && if n < 8 then refusal == Some(RefusalAt(c, n)) else refusal == None && steps == GateSteps(c, 8)
    {
      var item := db.lines[call.lineId];
      var sku := db.catalogue.skus[item.skuCatalogId];
      ghost var c := ContextOf(WorldOf(db, vendors), call, o);
      holding := CheckHolding(vendors.holdings, db.requests[item.requestId].targetUpn, sku.skuId, o.holdingReadThrows);
      steps := before + [Step(Holding, if holding == NotHeld then StepOk else StepSkipped)];
      PassGate(c, 6);
      PassGate(c, 7);
      if holding == Held || sku.unlimited {
        steps := steps + [Step(Seats, StepSkipped)];
      } else {
        if o.tenantSkus.ListThrows? {
          StopIsUnique(c, 7);
          return Some(Thrown(Unavailable)), holding, steps;
        }
        var counts := o.tenantSkus.counts;
        if sku.skuId in counts && counts[sku.skuId].assignableUnits == 0 {
          StopIsUnique(c, 7);
          return Some(Blocked(Seats, steps + [Step(Seats, StepFailed)])), holding, steps;
        }
        if sku.skuId !in counts || counts[sku.skuId].consumedUnits >= counts[sku.skuId].assignableUnits {
          StopIsUnique(c, 7);
          return Some(Blocked(Seats, steps + [Step(Seats, StepFailed)])), holding, steps;
        }
        steps := steps + [Step(Seats, StepOk)];
      }
      StopIsUnique(c, 8);
      return None, holding, steps;
    }

    /** The licence call, the transaction and the write-back, in that order. */
    method PerformAssignment(ghost w: World, ghost c: Context, call: AssignCall, o: Oracle, holding: HoldingStatus, before: seq<Step>)
      returns (result: AssignResult)
      requires db.State().Valid() && call.lineId in db.lines
      requires w == WorldOf(db, vendors) && c == ContextOf(w, call, o)
      requires holding == c.holding && before == GateSteps(c, 8)
      modifies db, vendors
      ensures (WorldOf(db, vendors), result) == Perform(w, call, c)
    {
      hide Settle;
      var l := call.lineId;
      var item := db.lines[l];
      var request := db.requests[item.requestId];
      var sku := db.catalogue.skus[item.skuCatalogId];
      var alreadyHeld := holding == Held;
      var steps := before;
      if alreadyHeld {
        steps := steps + [Step(AssignLicence, StepSkipped)];
      } else {
        if o.licence != LicenceAssigned && o.licence != LicenceAlreadyAssigned {
          return Thrown(Unavailable);
        }
        vendors.holdings := vendors.holdings + {(request.targetUpn, sku.skuId)};
        vendors.grants := vendors.grants + [Grant(item.requestId, request.targetUpn, sku.skuId)];
        steps := steps + [Step(AssignLicence, StepOk)];
      }
      var ticket := SettleAssignment(l, holding, o);
      steps := steps + [Step(LedgerSeat, if alreadyHeld then StepSkipped else StepOk)];
      steps := steps + [Step(TicketWrite, ticket)];
      ghost var effect := if alreadyHeld then StepSkipped else StepOk;
      assert steps == before + [Step(AssignLicence, effect), Step(LedgerSeat, effect), Step(TicketWrite, ticket)];
      return Done(steps);
    }

    method SettleAssignment(l: LineId, holding: HoldingStatus, o: Oracle) returns (ticket: StepStatus)
      requires db.State().Valid() && l in db.lines
      modifies db
      ensures (db.State(), ticket) == Settle(old(db.State()), l, holding, o)
    {
      hide Commit, WriteBack;
      var item := db.lines[l];
      CommitAssignment(l, Cell(db.requests[item.requestId].opcoId, item.skuCatalogId), holding, o.now);
      ticket := WriteTicketBack(l, o);
      if !(ticket == StepFailed && o.workNote == WorkNoteThrows("")) && !o.timelineNoteFails {
        db.events := db.events + [Note(item.requestId)];
      }
    }

    method HoldTicketOnce(l: LineId, o: Oracle)
      requires db.State().Valid() && l in db.lines
      modifies db
      ensures db.State() == HoldTicket(old(db.State()), l, o)
    {
      var item := db.lines[l];
      if !Truthy(item.serviceNowSysId) || item.ticketHeldAt.Some? {
        return;
      }
      var held := WriteTicket("hold", item.serviceNowSysId.value, HoldNote(db.catalogue.skus[item.skuCatalogId]), item.requestId, o);
      if !held {
        return;
      }
      db.lines := db.lines[l := item.(ticketHeldAt := Some(o.now))];
    }

    /** One RITM state change; a refusal and a thrown call are both queued. */
    method WriteTicket(transition: string, sysId: string, note: string, r: RequestId, o: Oracle) returns (moved: bool)
      requires db.State().Valid()
      modifies db
      ensures moved == (o.ticket == TicketUpdated)
      ensures db.State() == if moved then old(db.State())
        else FailureQueue.Recorded(old(db.State()), TicketUpdate, TicketUpdatePayload(sysId, transition, note), Undefined, Some(r))
    {
      if o.ticket == TicketUpdated {
        return true;
      }
      FailureQueue.Record(db, TicketUpdate, TicketUpdatePayload(sysId, transition, note), Undefined, Some(r));
      return false;
    }

    method CommitAssignment(l: LineId, cell: Cell, holding: HoldingStatus, now: Time)
      requires db.State().Valid() && l in db.lines && cell == db.State().CellOf(l)
      modifies db
      ensures db.State() == Commit(old(db.State()), l, holding, now)
    {
      var item := db.lines[l];
      if holding != Held {
        ChargeOneSeat(cell);
      }
      ghost var charged := db.State();
      assert charged == if holding == Held then old(db.State()) else old(db.State()).ChargeSeat(cell);
      hide Db.ChargeSeat, Db.CellOf;
      db.lines := db.lines[l := item.(stage := Assigned, stampedAt := item.stampedAt[Assigned := now])];
      db.events := db.events + [Event.Assign(item.requestId, l, holding)];
      assert db.State() == charged.MoveLine(l, Assigned, Event.Assign(item.requestId, l, holding), now);
      hide Db.MoveLine, StatusOf;
      var siblings := db.FindStages(item.requestId);
      AggregateIgnoresOrder(siblings);
      var r := item.requestId;
      db.requests := db.requests[r := db.requests[r].(status := AggregateRequestStatus(siblings))];
    }

    /** The ledger upsert; inside one transaction its place among the other writes does not show. */
    method ChargeOneSeat(cell: Cell)
      requires db.State().Valid()
      modifies db
      ensures db.State() == old(db.State()).ChargeSeat(cell)
    {
      if cell in db.ledger {
        var row := db.ledger[cell];
        db.ledger := db.ledger[cell := row.(assignedQuantity := row.assignedQuantity + 1)];
      } else {
        db.ledger := db.ledger[cell := LedgerRow(0, 1)];
      }
    }

    method WriteTicketBack(l: LineId, o: Oracle) returns (status: StepStatus)
      requires db.State().Valid() && l in db.lines
      modifies db
      ensures (db.State(), status) == WriteBack(old(db.State()), l, o)
    {
      var item := db.lines[l];
      var request := db.requests[item.requestId];
      var note := AssignNote(db.catalogue.skus[item.skuCatalogId]);
      if Truthy(item.serviceNowSysId) {
        var _ := WriteTicket("close", item.serviceNowSysId.value, note, item.requestId, o);
        return StepOk;
      } else if Truthy(request.serviceNowSysId) {
        if o.workNote.WorkNoteAdded? {
          return StepOk;
        }
        var payload := Obj(map["snTarget" := Str(request.serviceNowSysId.value), "note" := Str(note), "table" := Str("sc_request")]);
        FailureQueue.Record(db, WorkNote, payload, Undefined, Some(item.requestId));
        return StepFailed;
      }
      return StepSkipped;
    }
  }
}
