/** What a push stores, column by column and line by line, and when it is refused. */
module IntakeLaws {
  import opened Wrappers
  import opened Stages
  import opened Database
  import opened Terms
  import I = IntakeService

  /** A request mirrors this REQ already. */
  predicate Mirrored(db: Db, sysId: string) {
    exists r :: 0 <= r < |db.requests| && db.requests[r].serviceNowSysId == Some(sysId)
  }

  lemma MirroredMeans(db: Db, sysId: string)
    requires db.Valid()
    ensures sysId in db.requestBySysId <==> Mirrored(db, sysId)
    ensures sysId in db.requestBySysId ==>
      db.requestBySysId[sysId] < |db.requests| && db.requests[db.requestBySysId[sysId]].serviceNowSysId == Some(sysId)
  {
  }

  predicate LinesStand(db: Db, lines: seq<I.IntakeLine>) {
    forall i :: 0 <= i < |lines| ==> CanOrder(db.catalogue, lines[i].skuId)
  }

  lemma LinesStandMeans(db: Db, lines: seq<I.IntakeLine>)
    requires db.Valid()
    ensures I.AllOrderable(db.catalogue, lines) <==> LinesStand(db, lines)
  {
    forall i | 0 <= i < |lines| ensures I.Orderable(db.catalogue, lines[i].skuId) <==> CanOrder(db.catalogue, lines[i].skuId) {
      OrderableMeans(db.catalogue, lines[i].skuId);
    }
    hide I.Orderable, CanOrder, Db.Valid;
  }

  /** This push creates a request. */
  predicate Creates(db: Db, dto: I.IntakeDto, writeFails: bool) {
    && !Mirrored(db, dto.serviceNowSysId)
    && dto.opcoCode in db.catalogue.opcoByCode && LinesStand(db, dto.lineItems) && !writeFails
  }

  /** A REQ that is mirrored is answered with its request; another is stored if its OpCo is known,
      every SKU can be ordered and the write goes through, and is refused otherwise. */
  lemma IntakesExactlyWhen(db: Db, dto: I.IntakeDto, writeFails: bool)
    requires db.Valid()
    ensures var (after, result) := I.Intake(db, dto, writeFails);
      && (Mirrored(db, dto.serviceNowSysId) ==>
            result.Ok? && result.value < |db.requests| && db.requests[result.value].serviceNowSysId == Some(dto.serviceNowSysId))
      && (Mirrored(db, dto.serviceNowSysId) ||
          result == (if dto.opcoCode !in db.catalogue.opcoByCode then Err(NotFound)
                     else if !LinesStand(db, dto.lineItems) then Err(BadRequest)
                     else if writeFails then Err(DatabaseError)
                     else Ok(|db.requests|)))
      && (!Creates(db, dto, writeFails) ==> after == db)
  {
    MirroredMeans(db, dto.serviceNowSysId);
    LinesStandMeans(db, dto.lineItems);
    hide I.AllOrderable, LinesStand, Mirrored, I.MirrorRow, I.Resolved, Db.Valid;
  }

  /** Every column of the stored request, from the message it came in. */
  predicate StoredAs(row: Request, dto: I.IntakeDto, opcoId: OpcoId) {
    && row.targetUpn == dto.targetUpn
    && row.targetDisplayName == dto.targetDisplayName
    && row.opcoId == opcoId
    && row.requesterEmail == dto.requesterEmail
    && row.rawRequestText == dto.rawRequestText
    && row.status == Open
    && row.origin == OnboardingIntake
    && row.serviceNowSysId == Some(dto.serviceNowSysId)
    && row.serviceNowNumber == dto.serviceNowNumber
    && row.accountCreatedAt == dto.accountCreatedAt
    && row.azureSyncedAt == dto.azureSyncedAt
    && row.serviceNowUserSyncedAt == None
    && row.serviceNowUserSysId == None
    && row.serviceNowLicenceReqNumber == None
  }

  /** Line `l` stores one line of the message. */
  predicate LineStoredAs(db: Db, l: LineId, r: RequestId, line: I.IntakeLine) {
    && l in db.lines
    && db.lines[l].requestId == r
    && db.lines[l].skuCatalogId in db.catalogue.skus
    && db.catalogue.skus[db.lines[l].skuCatalogId].skuId == line.skuId
    && db.lines[l].quantity == line.quantity
    && !db.lines[l].procurementRequired
    && db.lines[l].stage == Requested
    && db.lines[l].stampedAt == map[]
    && db.lines[l].serviceNowSysId == line.ritmSysId
    && db.lines[l].serviceNowNumber == line.ritmNumber
    && db.lines[l].ticketHeldAt == None
  }

  /** The tables after a push that created a request: that row, its lines in order, and nothing else. */
  ghost predicate PushStored(db: Db, after: Db, dto: I.IntakeDto)
    requires dto.opcoCode in db.catalogue.opcoByCode
  {
    && |after.requests| == |db.requests| + 1
    && after == db.(requests := db.requests + [after.requests[|db.requests|]], requestBySysId := after.requestBySysId,
                    lines := after.lines, nextLine := db.nextLine + |dto.lineItems|)
    && StoredAs(after.requests[|db.requests|], dto, db.catalogue.opcoByCode[dto.opcoCode])
    && (forall l :: l in after.lines <==> l in db.lines || db.nextLine <= l < db.nextLine + |dto.lineItems|)
    && (forall l :: l in db.lines ==> after.lines[l] == db.lines[l])
    && (forall i :: 0 <= i < |dto.lineItems| ==> LineStoredAs(after, db.nextLine + i, |db.requests|, dto.lineItems[i]))
  }

  lemma PushStores(db: Db, dto: I.IntakeDto, writeFails: bool)
    requires db.Valid() && Creates(db, dto, writeFails)
    ensures PushStored(db, I.Intake(db, dto, writeFails).0, dto)
  {
    hide I.Intake, I.AllOrderable, LinesStand, Mirrored, LineStoredAs, StoredAs, RowIs, Db.Valid;
    PushIsACreate(db, dto, writeFails);
    var after := I.Intake(db, dto, writeFails).0;
    RowsAfterACreate(db, after.lines, |db.requests|, I.Resolved(db.catalogue, dto.lineItems));
    RowsStore(db, after, |db.requests|, dto.lineItems);
  }

  lemma PushIsACreate(db: Db, dto: I.IntakeDto, writeFails: bool)
    requires db.Valid() && Creates(db, dto, writeFails)
    ensures I.AllOrderable(db.catalogue, dto.lineItems)
    ensures var after := I.Intake(db, dto, writeFails).0;
      && |after.requests| == |db.requests| + 1
      && after == db.(requests := db.requests + [after.requests[|db.requests|]], requestBySysId := after.requestBySysId,
                      lines := db.lines + NumberedLines(|db.requests|, db.nextLine, I.Resolved(db.catalogue, dto.lineItems)),
                      nextLine := db.nextLine + |dto.lineItems|)
      && StoredAs(after.requests[|db.requests|], dto, db.catalogue.opcoByCode[dto.opcoCode])
  {
    MirroredMeans(db, dto.serviceNowSysId);
    LinesStandMeans(db, dto.lineItems);
    hide I.AllOrderable, LinesStand, Mirrored, NumberedLines;
  }

  /** The rows of a nested create: the old ones as they were, the new ones in order. */
  lemma RowsAfterACreate(db: Db, lines: map<LineId, Line>, r: RequestId, newLines: seq<NewLine>)
    requires db.Valid() && lines == db.lines + NumberedLines(r, db.nextLine, newLines)
    ensures forall l :: l in lines <==> l in db.lines || db.nextLine <= l < db.nextLine + |newLines|
    ensures forall l :: l in db.lines ==> lines[l] == db.lines[l]
    ensures forall i :: 0 <= i < |newLines| ==> RowIs(lines, db.nextLine + i, r, newLines[i])
  {
    hide MakeLine;
    forall i | 0 <= i < |newLines| ensures RowIs(lines, db.nextLine + i, r, newLines[i]) {
      assert db.nextLine + i in NumberedLines(r, db.nextLine, newLines);
    }
  }

  predicate RowIs(lines: map<LineId, Line>, l: LineId, r: RequestId, line: NewLine) {
    l in lines && lines[l] == MakeLine(r, line)
  }

  lemma RowsStore(db: Db, after: Db, r: RequestId, lines: seq<I.IntakeLine>)
    requires db.Valid() && I.AllOrderable(db.catalogue, lines) && after.catalogue == db.catalogue
    requires forall i :: 0 <= i < |lines| ==> RowIs(after.lines, db.nextLine + i, r, I.Resolved(db.catalogue, lines)[i])
    ensures forall i :: 0 <= i < |lines| ==> LineStoredAs(after, db.nextLine + i, r, lines[i])
  {
    forall i | 0 <= i < |lines| ensures LineStoredAs(after, db.nextLine + i, r, lines[i]) {
      assert I.Orderable(db.catalogue, lines[i].skuId);
      assert RowIs(after.lines, db.nextLine + i, r, I.Resolved(db.catalogue, lines)[i]);
    }
  }
}
