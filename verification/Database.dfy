/**
  The tables the services share (apps/api/prisma/schema.prisma), once as a value
  `Db` that specifications speak about and once as the mutable object `Tables`
  that the services update.
 */
module Database {
  import opened Wrappers
  import opened Json
  import opened Stages

  type Time = int
  type OpcoId = string
  type SkuRowId = string
  type RequestId = nat
  type LineId = nat
  type FailureId = nat

  datatype Actor = Actor(id: string, isAdmin: bool, opcoScope: Option<OpcoId>)

  /** assertOpcoScope: an unscoped actor may touch every OpCo, a scoped one only its own. */
  predicate InScope(actor: Actor, opcoId: OpcoId) {
    Truthy(actor.opcoScope) ==> actor.opcoScope == Some(opcoId)
  }

  datatype Origin = OnboardingIntake | PlatformCreated

  datatype Request = Request(
    targetUpn: string,
    targetDisplayName: Option<string>,
    opcoId: OpcoId,
    requesterEmail: Option<string>,
    rawRequestText: Option<string>,
    status: RequestStatus,
    origin: Origin,
    serviceNowSysId: Option<string>,
    serviceNowNumber: Option<string>,
    accountCreatedAt: Option<Time>,
    azureSyncedAt: Option<Time>,
    serviceNowUserSyncedAt: Option<Time>,
    serviceNowUserSysId: Option<string>,
    serviceNowLicenceReqNumber: Option<string>
  )

  datatype Line = Line(
    requestId: RequestId,
    skuCatalogId: SkuRowId,
    quantity: int,
    procurementRequired: bool,
    stage: Stage,
    stampedAt: map<Stage, Time>,
    serviceNowSysId: Option<string>,
    serviceNowNumber: Option<string>,
    ticketHeldAt: Option<Time>
  )

  datatype Sku = Sku(skuId: string, skuPartNumber: string, active: bool, unlimited: bool)

  /** The catalogue rows and the unique indexes they are looked up by. */
  datatype Catalogue = Catalogue(
    skus: map<SkuRowId, Sku>,
    skuByGuid: map<string, SkuRowId>,
    opcos: set<OpcoId>,
    opcoByCode: map<string, OpcoId>,
    activeOpcos: set<OpcoId>
  ) {
    ghost predicate Valid() {
      && (forall g :: g in skuByGuid ==> skuByGuid[g] in skus && skus[skuByGuid[g]].skuId == g)
      && (forall s :: s in skus ==> skus[s].skuId in skuByGuid && skuByGuid[skus[s].skuId] == s)
      && (forall c :: c in opcoByCode ==> opcoByCode[c] in opcos)
    }
  }

  datatype Cell = Cell(opcoId: OpcoId, skuCatalogId: SkuRowId)

  datatype LedgerRow = LedgerRow(allocatedQuantity: int, assignedQuantity: int)

  datatype HoldingStatus = Held | NotHeld | Unknown

  /** A timeline row. An assign row's message tells the three holding answers apart. */
  datatype Event =
    | StageChange(requestId: RequestId, lineId: LineId, fromStage: Stage, toStage: Stage)
    | Assign(requestId: RequestId, lineId: LineId, holding: HoldingStatus)
    | Sync(requestId: RequestId)
    | Note(requestId: RequestId)

  datatype FailureKind = RequestSubmit | RequestMirror | WorkNote | TicketUpdate | Notification
  datatype FailureStatus = QueueOpen | Resolved | Abandoned

  datatype Failure = Failure(
    kind: FailureKind,
    status: FailureStatus,
    payload: Json,
    externalRef: Json,
    attemptCount: nat,
    requestId: Option<RequestId>,
    resolvedById: Option<string>
  )

  /** The columns a caller supplies for a new line; the rest take their defaults. */
  datatype NewLine = NewLine(
    skuCatalogId: SkuRowId,
    quantity: int,
    procurementRequired: bool,
    serviceNowSysId: Option<string>,
    serviceNowNumber: Option<string>
  )

  function MakeLine(r: RequestId, n: NewLine): Line {
    Line(r, n.skuCatalogId, n.quantity, n.procurementRequired, Requested, map[],
         n.serviceNowSysId, n.serviceNowNumber, None)
  }

  function StagesOf(lines: map<LineId, Line>, r: RequestId): set<Stage> {
    set l | l in lines && lines[l].requestId == r :: lines[l].stage
  }

  datatype Db = Db(
    catalogue: Catalogue,
    requests: seq<Request>,
    requestBySysId: map<string, RequestId>,
    lines: map<LineId, Line>,
    nextLine: LineId,
    ledger: map<Cell, LedgerRow>,
    events: seq<Event>,
    failures: seq<Failure>
  ) {
    /** Foreign keys hold, unique indexes agree with their tables, and a line id
        is never handed out twice. */
    ghost predicate Valid() {
      && catalogue.Valid()
      && (forall r :: 0 <= r < |requests| ==> requests[r].opcoId in catalogue.opcos)
      && (forall s :: s in requestBySysId ==>
            requestBySysId[s] < |requests| && requests[requestBySysId[s]].serviceNowSysId == Some(s))
      && (forall r :: 0 <= r < |requests| && requests[r].serviceNowSysId.Some? ==>
            requests[r].serviceNowSysId.value in requestBySysId &&
            requestBySysId[requests[r].serviceNowSysId.value] == r)
      && (forall l :: l in lines ==>
            l < nextLine && lines[l].requestId < |requests| && lines[l].skuCatalogId in catalogue.skus)
      && (forall e :: e in events ==> e.requestId < |requests|)
      && (forall e :: e in events && (e.StageChange? || e.Assign?) ==> e.lineId < nextLine)
    }

    /** The unique constraint on `serviceNowSysId` would refuse this value. */
    predicate SysIdTaken(sysId: Option<string>) {
      sysId.Some? && sysId.value in requestBySysId
    }

    predicate ValidLines(newLines: seq<NewLine>) {
      forall i :: 0 <= i < |newLines| ==> newLines[i].skuCatalogId in catalogue.skus
    }

    /** One nested create: the request row and its lines, all at REQUESTED. */
    function CreateRequest(req: Request, newLines: seq<NewLine>): (after: Db)
      requires Valid() && req.opcoId in catalogue.opcos && ValidLines(newLines)
      requires !SysIdTaken(req.serviceNowSysId)
      ensures after.Valid()
    {
      var r := |requests|;
      var after := this.(
        requests := requests + [req],
        requestBySysId := if req.serviceNowSysId.Some? then requestBySysId[req.serviceNowSysId.value := r] else requestBySysId,
        lines := lines + NumberedLines(r, nextLine, newLines),
        nextLine := nextLine + |newLines|
      );
      CreatedIsIndexed(this, after, req);
      CreatedIsInRange(this, after, newLines);
      after
    }

    function InsertLine(r: RequestId, n: NewLine): (after: Db)
      requires Valid() && r < |requests| && n.skuCatalogId in catalogue.skus
      ensures after.Valid()
    {
      this.(lines := lines[nextLine := MakeLine(r, n)], nextLine := nextLine + 1)
    }

    function DeleteLine(l: LineId): (after: Db)
      requires Valid() && l in lines
      ensures after.Valid()
    {
      this.(lines := lines - {l})
    }

    /** A stage move and the timeline row that records it. */
    function MoveLine(l: LineId, toStage: Stage, event: Event, now: Time): (after: Db)
      requires Valid() && l in lines && event.requestId < |requests|
      requires event.StageChange? || event.Assign? ==> event.lineId < nextLine
      ensures after.Valid()
    {
      var stamped := if Stamped(toStage) then lines[l].stampedAt[toStage := now] else lines[l].stampedAt;
      this.(lines := lines[l := lines[l].(stage := toStage, stampedAt := stamped)], events := events + [event])
    }

    function AddEvent(event: Event): (after: Db)
      requires Valid() && event.requestId < |requests|
      requires event.StageChange? || event.Assign? ==> event.lineId < nextLine
      ensures after.Valid()
    {
      this.(events := events + [event])
    }

    /** recomputeRequestStatus */
    function Recompute(r: RequestId): (after: Db)
      requires Valid() && r < |requests|
      ensures after.Valid()
    {
      this.(requests := requests[r := requests[r].(status := StatusOf(StagesOf(lines, r)))])
    }

    /** An update of one request row that keeps its identity columns. */
    function SetRequest(r: RequestId, req: Request): (after: Db)
      requires Valid() && r < |requests|
      requires req.opcoId == requests[r].opcoId && req.serviceNowSysId == requests[r].serviceNowSysId
      ensures after.Valid()
    {
      this.(requests := requests[r := req])
    }

    /** The seat count of a ledger cell; a missing row counts nothing. */
    function AssignedQuantity(cell: Cell): int {
      if cell in ledger then ledger[cell].assignedQuantity else 0
    }

    function AllocatedQuantity(cell: Cell): int {
      if cell in ledger then ledger[cell].allocatedQuantity else 0
    }

    /** The assign transaction's ledger upsert. */
    function ChargeSeat(cell: Cell): (after: Db)
      requires Valid()
      ensures after.Valid()
    {
      this.(ledger := ledger[cell := LedgerRow(AllocatedQuantity(cell), AssignedQuantity(cell) + 1)])
    }

    function CellOf(l: LineId): Cell
      requires Valid() && l in lines
    {
      Cell(requests[lines[l].requestId].opcoId, lines[l].skuCatalogId)
    }

    function SkuOf(l: LineId): Sku
      requires Valid() && l in lines
    {
      catalogue.skus[lines[l].skuCatalogId]
    }
  }

  /** The unique index still agrees with the table after a row is appended. */
  lemma CreatedIsIndexed(db: Db, after: Db, req: Request)
    requires db.Valid() && !db.SysIdTaken(req.serviceNowSysId)
    requires after.requests == db.requests + [req]
    requires after.requestBySysId ==
      if req.serviceNowSysId.Some? then db.requestBySysId[req.serviceNowSysId.value := |db.requests|] else db.requestBySysId
    ensures forall s :: s in after.requestBySysId ==>
      after.requestBySysId[s] < |after.requests| && after.requests[after.requestBySysId[s]].serviceNowSysId == Some(s)
    ensures forall r :: 0 <= r < |after.requests| && after.requests[r].serviceNowSysId.Some? ==>
      after.requests[r].serviceNowSysId.value in after.requestBySysId &&
      after.requestBySysId[after.requests[r].serviceNowSysId.value] == r
  {
  }

  /** The new lines are the new request's, under ids not handed out before. */
  lemma CreatedIsInRange(db: Db, after: Db, newLines: seq<NewLine>)
    requires db.Valid() && db.ValidLines(newLines) && |after.requests| == |db.requests| + 1
    requires after.lines == db.lines + NumberedLines(|db.requests|, db.nextLine, newLines)
    requires after.nextLine == db.nextLine + |newLines| && after.catalogue == db.catalogue
    ensures forall l :: l in after.lines ==>
      l < after.nextLine && after.lines[l].requestId < |after.requests| && after.lines[l].skuCatalogId in after.catalogue.skus
  {
  }

  function NumberedLine(r: RequestId, first: LineId, newLines: seq<NewLine>, l: LineId): Line
    requires first <= l < first + |newLines|
  {
    MakeLine(r, newLines[l - first])
  }

  /** The rows of a nested create, under consecutive fresh ids. */
  function NumberedLines(r: RequestId, first: LineId, newLines: seq<NewLine>): map<LineId, Line> {
    map l: LineId | first <= l < first + |newLines| :: NumberedLine(r, first, newLines, l)
  }

  /** The lines of request `r` outside the set `todo`. */
  ghost function RowsOutside(lines: map<LineId, Line>, todo: set<LineId>, r: RequestId): set<LineId> {
    set l | l in lines && l !in todo && lines[l].requestId == r
  }

  /** The database the services share. */
  class Tables {
    const catalogue: Catalogue
    var requests: seq<Request>
    var requestBySysId: map<string, RequestId>
    var lines: map<LineId, Line>
    var nextLine: LineId
    var ledger: map<Cell, LedgerRow>
    var events: seq<Event>
    var failures: seq<Failure>

    constructor (catalogue: Catalogue)
      ensures State() == Db(catalogue, [], map[], map[], 0, map[], [], [])
    {
      this.catalogue := catalogue;
      requests, requestBySysId, lines, nextLine := [], map[], map[], 0;
      ledger, events, failures := map[], [], [];
    }

    function State(): Db
      reads this
    {
      Db(catalogue, requests, requestBySysId, lines, nextLine, ledger, events, failures)
    }

    /** `findMany({ where: { requestId }, select: { stage } })`: one row per line, in no promised order. */
    method FindStages(r: RequestId) returns (stages: seq<Stage>)
      ensures (set s | s in stages) == StagesOf(lines, r)
      ensures |stages| == |RowsOutside(lines, {}, r)|
    {
      stages := [];
      var todo := lines.Keys;
      assert RowsOutside(lines, todo, r) == {};
      while todo != {}
        invariant todo <= lines.Keys
        invariant forall s :: s in stages <==> exists l :: l in RowsOutside(lines, todo, r) && lines[l].stage == s
        invariant |stages| == |RowsOutside(lines, todo, r)|
        decreases todo
      {
        var l :| l in todo;
        ghost var seen := RowsOutside(lines, todo, r);
        ghost var seen' := RowsOutside(lines, todo - {l}, r);
        if lines[l].requestId == r {
          stages := stages + [lines[l].stage];
          assert seen' == seen + {l};
        } else {
          assert seen' == seen;
        }
        todo := todo - {l};
      }
    }
  }
}
