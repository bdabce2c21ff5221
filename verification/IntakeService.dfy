/**
  The inbound mirror of an onboarding request, idempotent on the REQ sysId
  (apps/api/src/fulfilment/intake.service.ts).
 */
module IntakeService {
  import opened Wrappers
  import opened Stages
  import opened Database

  datatype IntakeLine = IntakeLine(skuId: string, quantity: int, ritmSysId: Option<string>, ritmNumber: Option<string>)

  datatype IntakeDto = IntakeDto(
    targetUpn: string,
    targetDisplayName: Option<string>,
    opcoCode: string,
    requesterEmail: Option<string>,
    rawRequestText: Option<string>,
    serviceNowSysId: string,
    serviceNowNumber: Option<string>,
    accountCreatedAt: Option<Time>,
    azureSyncedAt: Option<Time>,
    lineItems: seq<IntakeLine>
  )

  function FindByReq(db: Db, sysId: string): Option<RequestId> {
    if sysId in db.requestBySysId then Some(db.requestBySysId[sysId]) else None
  }

  /** The catalogue has an active row for this GUID. */
  predicate Orderable(catalogue: Catalogue, skuId: string) {
    && skuId in catalogue.skuByGuid
    && catalogue.skuByGuid[skuId] in catalogue.skus
    && catalogue.skus[catalogue.skuByGuid[skuId]].active
  }

  predicate AllOrderable(catalogue: Catalogue, lines: seq<IntakeLine>) {
    forall i :: 0 <= i < |lines| ==> Orderable(catalogue, lines[i].skuId)
  }

  function Resolved(catalogue: Catalogue, lines: seq<IntakeLine>): seq<NewLine>
    requires AllOrderable(catalogue, lines)
  {
    seq(|lines|, i requires 0 <= i < |lines| =>
      NewLine(catalogue.skuByGuid[lines[i].skuId], lines[i].quantity, false, lines[i].ritmSysId, lines[i].ritmNumber))
  }

  function MirrorRow(dto: IntakeDto, opcoId: OpcoId): Request {
    Request(dto.targetUpn, dto.targetDisplayName, opcoId, dto.requesterEmail, dto.rawRequestText,
            Open, OnboardingIntake, Some(dto.serviceNowSysId), dto.serviceNowNumber,
            dto.accountCreatedAt, dto.azureSyncedAt, None, None, None)
  }

  /** The checks between the pre-check and the write. */
  function Resolve(db: Db, dto: IntakeDto): Result<(Request, seq<NewLine>)> {
    if dto.opcoCode !in db.catalogue.opcoByCode then Err(NotFound)
    else if !AllOrderable(db.catalogue, dto.lineItems) then Err(BadRequest)
    else Ok((MirrorRow(dto, db.catalogue.opcoByCode[dto.opcoCode]), Resolved(db.catalogue, dto.lineItems)))
  }

  /** The nested create; the unique constraint on the REQ sysId is its backstop. */
  function Create(db: Db, dto: IntakeDto, row: Request, newLines: seq<NewLine>, writeFails: bool): (out: (Db, Result<RequestId>))
    requires db.Valid() && Resolve(db, dto) == Ok((row, newLines))
    ensures out.0.Valid()
  {
    if writeFails || db.SysIdTaken(row.serviceNowSysId) then (db, Err(DatabaseError))
    else (db.CreateRequest(row, newLines), Ok(|db.requests|))
  }

  /** One undisturbed call. */
  function Intake(db: Db, dto: IntakeDto, writeFails: bool): (out: (Db, Result<RequestId>))
    requires db.Valid()
    ensures out.0.Valid()
    ensures out.1.Ok? ==> out.1.value < |out.0.requests|
  {
    if FindByReq(db, dto.serviceNowSysId).Some? then (db, Ok(FindByReq(db, dto.serviceNowSysId).value))
    else
      match Resolve(db, dto)
      case Err(e) => (db, Err(e))
      case Ok((row, newLines)) => Create(db, dto, row, newLines, writeFails)
  }

  method IntakeRequest(db: Tables, dto: IntakeDto, writeFails: bool) returns (result: Result<RequestId>)
    requires db.State().Valid()
    modifies db
    ensures (db.State(), result) == Intake(old(db.State()), dto, writeFails)
  {
    if dto.serviceNowSysId in db.requestBySysId {
      return Ok(db.requestBySysId[dto.serviceNowSysId]);
    }
    if dto.opcoCode !in db.catalogue.opcoByCode {
      return Err(NotFound);
    }
    var opcoId := db.catalogue.opcoByCode[dto.opcoCode];
    var resolved: seq<NewLine> := [];
    for i := 0 to |dto.lineItems|
      invariant AllOrderable(db.catalogue, dto.lineItems[..i])
      invariant resolved == Resolved(db.catalogue, dto.lineItems[..i])
    {
      var line := dto.lineItems[i];
      if !Orderable(db.catalogue, line.skuId) {
        return Err(BadRequest);
      }
      resolved := resolved + [NewLine(db.catalogue.skuByGuid[line.skuId], line.quantity, false, line.ritmSysId, line.ritmNumber)];
      assert dto.lineItems[..i + 1] == dto.lineItems[..i] + [line];
    }
    assert dto.lineItems[..|dto.lineItems|] == dto.lineItems;
    result := CreateOrRecover(db, dto, MirrorRow(dto, opcoId), resolved, writeFails);
  }

  /** The nested create, and the second look when the unique constraint refuses it:
      a concurrent call that won the race is found rather than reported. */
  method CreateOrRecover(db: Tables, dto: IntakeDto, row: Request, newLines: seq<NewLine>, writeFails: bool)
    returns (result: Result<RequestId>)
    requires db.State().Valid() && Resolve(db.State(), dto) == Ok((row, newLines))
    modifies db
    ensures db.State() == Create(old(db.State()), dto, row, newLines, writeFails).0
    ensures result == match FindByReq(old(db.State()), dto.serviceNowSysId)
                      case Some(winner) => Ok(winner)
                      case None => Create(old(db.State()), dto, row, newLines, writeFails).1
  {
    if dto.serviceNowSysId in db.requestBySysId {
      return Ok(db.requestBySysId[dto.serviceNowSysId]);
    }
    if writeFails {
      return Err(DatabaseError);
    }
    result := Ok(|db.requests|);
    StoreMirror(db, row, newLines);
  }

  method StoreMirror(db: Tables, row: Request, newLines: seq<NewLine>)
    requires db.State().Valid() && row.opcoId in db.catalogue.opcos && db.State().ValidLines(newLines)
    requires !db.State().SysIdTaken(row.serviceNowSysId)
    modifies db
    ensures db.State() == old(db.State()).CreateRequest(row, newLines)
  {
    var r := |db.requests|;
    db.requests := db.requests + [row];
    if row.serviceNowSysId.Some? {
      db.requestBySysId := db.requestBySysId[row.serviceNowSysId.value := r];
    }
    db.lines := db.lines + NumberedLines(r, db.nextLine, newLines);
    db.nextLine := db.nextLine + |newLines|;
  }
}
