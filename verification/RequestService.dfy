/** Request intake, line authoring and header edits (apps/api/src/fulfilment/request.service.ts). */
module RequestService {
  import opened Wrappers
  import opened Stages
  import opened Database
  import Moves = StageService

  datatype IntakeDto = IntakeDto(
    targetUpn: string,
    targetDisplayName: Option<string>,
    opcoId: OpcoId,
    requesterEmail: Option<string>,
    rawRequestText: Option<string>,
    serviceNowNumber: Option<string>
  )

  /** What ServiceNow answers when a record is looked up by number. */
  datatype RecordLookup =
    | LookupThrows
    | NoRecord
    | Record(sysId: Option<string>, number: Option<string>, text: Option<string>)

  datatype LineDto = LineDto(skuCatalogId: SkuRowId, quantity: Option<int>, procurementRequired: bool)

  /** A header edit: `None` leaves a field alone. */
  datatype HeaderPatch = HeaderPatch(
    targetUpn: Option<string>,
    targetDisplayName: Option<Option<string>>,
    requesterEmail: Option<Option<string>>,
    rawRequestText: Option<Option<string>>
  )

  function OrElse<T>(first: Option<T>, second: Option<T>): Option<T> {
    if first.Some? then first else second
  }

  function IntakeRow(dto: IntakeDto, lookup: RecordLookup): Request {
    var mirrored := Truthy(dto.serviceNowNumber) && lookup.Record?;
    Request(
      dto.targetUpn, dto.targetDisplayName, dto.opcoId, dto.requesterEmail,
      if mirrored then OrElse(dto.rawRequestText, lookup.text) else dto.rawRequestText,
      Open, OnboardingIntake,
      if mirrored then lookup.sysId else None,
      if mirrored then OrElse(lookup.number, dto.serviceNowNumber) else dto.serviceNowNumber,
      None, None, None, None, None)
  }

  function Intake(db: Db, dto: IntakeDto, lookup: RecordLookup, actor: Actor): (out: (Db, Result<RequestId>))
    requires db.Valid()
    ensures out.0.Valid()
  {
    if dto.opcoId !in db.catalogue.opcos then (db, Err(NotFound))
    else if !InScope(actor, dto.opcoId) then (db, Err(Forbidden))
    else if Truthy(dto.serviceNowNumber) && lookup.LookupThrows? then (db, Err(Unavailable))
    else if Truthy(dto.serviceNowNumber) && lookup.NoRecord? then (db, Err(NotFound))
    else
      var row := IntakeRow(dto, lookup);
      if db.SysIdTaken(row.serviceNowSysId) then (db, Err(DatabaseError))
      else (db.CreateRequest(row, []), Ok(|db.requests|))
  }

  function NewLineOf(dto: LineDto): NewLine {
    NewLine(dto.skuCatalogId, dto.quantity.GetOr(1), dto.procurementRequired, None, None)
  }

  function AddLine(db: Db, r: nat, dto: LineDto, actor: Actor): (out: (Db, Result<LineId>))
    requires db.Valid()
    ensures out.0.Valid()
  {
    if r >= |db.requests| then (db, Err(NotFound))
    else if !InScope(actor, db.requests[r].opcoId) then (db, Err(Forbidden))
    else if db.requests[r].origin == PlatformCreated then (db, Err(Conflict))
    else if StatusOf(StagesOf(db.lines, r)) == Completed then (db, Err(Conflict))
    else if dto.skuCatalogId !in db.catalogue.skus then (db, Err(NotFound))
    else (db.InsertLine(r, NewLineOf(dto)).AddEvent(Note(r)).Recompute(r), Ok(db.nextLine))
  }

  function Patched(req: Request, patch: HeaderPatch): Request {
    req.(targetUpn := patch.targetUpn.GetOr(req.targetUpn),
         targetDisplayName := patch.targetDisplayName.GetOr(req.targetDisplayName),
         requesterEmail := patch.requesterEmail.GetOr(req.requesterEmail),
         rawRequestText := patch.rawRequestText.GetOr(req.rawRequestText))
  }

  function UpdateHeader(db: Db, r: nat, patch: HeaderPatch, actor: Actor): (out: (Db, Result<RequestId>))
    requires db.Valid()
    ensures out.0.Valid()
  {
    if r >= |db.requests| then (db, Err(NotFound))
    else if !InScope(actor, db.requests[r].opcoId) then (db, Err(Forbidden))
    else if patch.targetUpn.Some? && db.requests[r].azureSyncedAt.Some? then (db, Err(Conflict))
    else if Patched(db.requests[r], patch) == db.requests[r] then (db, Ok(r))
    else (db.SetRequest(r, Patched(db.requests[r], patch)).AddEvent(Note(r)), Ok(r))
  }

  function RemoveLine(db: Db, r: nat, l: LineId, actor: Actor): (out: (Db, Result<LineId>))
    requires db.Valid()
    ensures out.0.Valid()
  {
    if r >= |db.requests| then (db, Err(NotFound))
    else if !InScope(actor, db.requests[r].opcoId) then (db, Err(Forbidden))
    else if l !in db.lines || db.lines[l].requestId != r then (db, Err(NotFound))
    else if db.lines[l].serviceNowSysId.Some? then (db, Err(Conflict))
    else if db.lines[l].stage != Requested then (db, Err(Conflict))
    else (db.DeleteLine(l).AddEvent(Note(r)).Recompute(r), Ok(l))
  }

  class Service {
    const db: Tables
    const stage: Moves.Service

    constructor (db: Tables, stage: Moves.Service)
      requires stage.db == db
      ensures this.db == db && this.stage == stage
    {
      this.db := db;
      this.stage := stage;
    }

    method IntakeRequest(dto: IntakeDto, lookup: RecordLookup, actor: Actor) returns (result: Result<RequestId>)
      requires db.State().Valid()
      modifies db
      ensures (db.State(), result) == Intake(old(db.State()), dto, lookup, actor)
    {
      if dto.opcoId !in db.catalogue.opcos {
        return Err(NotFound);
      }
      if !InScope(actor, dto.opcoId) {
        return Err(Forbidden);
      }
      var sysId: Option<string>, number, text := None, dto.serviceNowNumber, dto.rawRequestText;
      if Truthy(dto.serviceNowNumber) {
        match lookup {
          case LookupThrows => return Err(Unavailable);
          case NoRecord => return Err(NotFound);
          case Record(foundSysId, foundNumber, foundText) =>
            sysId := foundSysId;
            number := OrElse(foundNumber, dto.serviceNowNumber);
            text := OrElse(dto.rawRequestText, foundText);
        }
      }
      if sysId.Some? && sysId.value in db.requestBySysId {
        return Err(DatabaseError);
      }
      var id := |db.requests|;
      if sysId.Some? {
        db.requestBySysId := db.requestBySysId[sysId.value := id];
      }
      db.requests := db.requests + [Request(
        dto.targetUpn, dto.targetDisplayName, dto.opcoId, dto.requesterEmail, text,
        Open, OnboardingIntake, sysId, number, None, None, None, None, None)];
      assert db.lines + NumberedLines(id, db.nextLine, []) == db.lines;
      return Ok(id);
    }

    method AddLineItem(r: nat, dto: LineDto, actor: Actor) returns (result: Result<LineId>)
      requires db.State().Valid() && stage.db == db
      modifies db
      ensures (db.State(), result) == AddLine(old(db.State()), r, dto, actor)
    {
      if r >= |db.requests| {
        return Err(NotFound);
      }
      if !InScope(actor, db.requests[r].opcoId) {
        return Err(Forbidden);
      }
      if db.requests[r].origin == PlatformCreated {
        return Err(Conflict);
      }
      var existing := db.FindStages(r);
      AggregateIgnoresOrder(existing);
      if AggregateRequestStatus(existing) == Completed {
        return Err(Conflict);
      }
      if dto.skuCatalogId !in db.catalogue.skus {
        return Err(NotFound);
      }
      var l := db.nextLine;
      db.nextLine := l + 1;
      db.lines := db.lines[l := MakeLine(r, NewLineOf(dto))];
      db.events := db.events + [Note(r)];
      assert db.State() == old(db.State()).InsertLine(r, NewLineOf(dto)).AddEvent(Note(r));
      var _ := stage.RecomputeRequestStatus(r);
      return Ok(l);
    }

    method UpdateRequestHeader(r: nat, patch: HeaderPatch, actor: Actor) returns (result: Result<RequestId>)
      requires db.State().Valid()
      modifies db
      ensures (db.State(), result) == UpdateHeader(old(db.State()), r, patch, actor)
    {
      if r >= |db.requests| {
        return Err(NotFound);
      }
      var request := db.requests[r];
      if !InScope(actor, request.opcoId) {
        return Err(Forbidden);
      }
      if patch.targetUpn.Some? && request.azureSyncedAt.Some? {
        return Err(Conflict);
      }
      var changed := CountChanges(request, patch);
      if changed == 0 {
        return Ok(r);
      }
      hide Patched;
      db.requests := db.requests[r := Patched(request, patch)];
      db.events := db.events + [Note(r)];
      return Ok(r);
    }

    /** How many of the supplied fields differ from the stored ones. */
    method CountChanges(request: Request, patch: HeaderPatch) returns (changed: nat)
      ensures changed == 0 <==> Patched(request, patch) == request
    {
      changed := 0;
      if patch.targetUpn.Some? && patch.targetUpn.value != request.targetUpn { changed := changed + 1; }
      if patch.targetDisplayName.Some? && patch.targetDisplayName.value != request.targetDisplayName { changed := changed + 1; }
      if patch.requesterEmail.Some? && patch.requesterEmail.value != request.requesterEmail { changed := changed + 1; }
      if patch.rawRequestText.Some? && patch.rawRequestText.value != request.rawRequestText { changed := changed + 1; }
    }

    method RemoveLineItem(r: nat, l: LineId, actor: Actor) returns (result: Result<LineId>)
      requires db.State().Valid() && stage.db == db
      modifies db
      ensures (db.State(), result) == RemoveLine(old(db.State()), r, l, actor)
    {
      if r >= |db.requests| {
        return Err(NotFound);
      }
      if !InScope(actor, db.requests[r].opcoId) {
        return Err(Forbidden);
      }
      if l !in db.lines || db.lines[l].requestId != r {
        return Err(NotFound);
      }
      var item := db.lines[l];
      if item.serviceNowSysId != None {
        return Err(Conflict);
      }
      if item.stage != Requested {
        return Err(Conflict);
      }
      db.lines := db.lines - {l};
      db.events := db.events + [Note(r)];
      assert db.State() == old(db.State()).DeleteLine(l).AddEvent(Note(r));
      var _ := stage.RecomputeRequestStatus(r);
      return Ok(l);
    }
  }
}
