/** What filing a request, authoring its lines and editing its header do to the rows, column by column. */
module RequestLaws {
  import opened Wrappers
  import opened Stages
  import opened Database
  import opened Terms
  import R = RequestService

  // ── authoring a line ──

  /** Some line is assigned, and every other one is too or is cancelled. */
  predicate Delivered(db: Db, r: RequestId) {
    && (exists l :: l in db.lines && db.lines[l].requestId == r && db.lines[l].stage == Assigned)
    && (forall l :: l in db.lines && db.lines[l].requestId == r ==> db.lines[l].stage == Assigned || db.lines[l].stage == Cancelled)
  }

  lemma DeliveredMeans(db: Db, r: RequestId)
    ensures StatusOf(StagesOf(db.lines, r)) == Completed <==> Delivered(db, r)
  {
    var all := StagesOf(db.lines, r);
    assert Assigned in all <==> exists l :: l in db.lines && db.lines[l].requestId == r && db.lines[l].stage == Assigned;
    assert all <= {Assigned, Cancelled} && Assigned !in all ==> all == {} || all == {Cancelled};
    if Delivered(db, r) {
      assert all <= {Assigned, Cancelled};
    }
    if all <= {Assigned, Cancelled} {
      forall l | l in db.lines && db.lines[l].requestId == r ensures db.lines[l].stage == Assigned || db.lines[l].stage == Cancelled {
        assert db.lines[l].stage in all;
      }
    }
  }

  /** Lines are authored on an onboarding request, in scope, that is not delivered yet. */
  predicate CanAdd(db: Db, r: nat, actor: Actor) {
    && r < |db.requests|
    && MayTouch(actor, db.requests[r].opcoId)
    && db.requests[r].origin != PlatformCreated
    && !Delivered(db, r)
  }

  lemma AddsExactlyWhen(db: Db, r: nat, dto: R.LineDto, actor: Actor)
    requires db.Valid()
    ensures R.AddLine(db, r, dto, actor).1 ==
      if CanAdd(db, r, actor) then if dto.skuCatalogId in db.catalogue.skus then Ok(db.nextLine) else Err(NotFound)
      else if r >= |db.requests| then Err(NotFound)
      else if !MayTouch(actor, db.requests[r].opcoId) then Err(Forbidden)
      else Err(Conflict)
    ensures R.AddLine(db, r, dto, actor).1.Err? ==> R.AddLine(db, r, dto, actor).0 == db
  {
    if r < |db.requests| {
      DeliveredMeans(db, r);
      ScopeMeans(actor, db.requests[r].opcoId);
    }
    hide StagesOf, StatusOf, Delivered, InScope, MayTouch, Db.Valid;
  }

  /** The tables after one more line: the row, a note, and at most a new status. */
  predicate OneMoreLine(db: Db, after: Db, r: RequestId, row: Line) {
    && r < |db.requests| && |after.requests| == |db.requests|
    && after == db.(lines := db.lines[db.nextLine := row], nextLine := db.nextLine + 1,
                    events := db.events + [Note(r)], requests := after.requests)
    && after.requests == db.requests[r := db.requests[r].(status := after.requests[r].status)]
  }

  lemma AddedLine(db: Db, r: nat, dto: R.LineDto, actor: Actor)
    requires db.Valid() && R.AddLine(db, r, dto, actor).1.Ok?
    ensures OneMoreLine(db, R.AddLine(db, r, dto, actor).0, r,
      Line(r, dto.skuCatalogId, if dto.quantity.Some? then dto.quantity.value else 1, dto.procurementRequired, Requested, map[], None, None, None))
  {
    hide StagesOf, StatusOf, InScope;
  }

  /** A line at REQUESTED keeps its request from being delivered. */
  lemma OneMoreLineIsNotDelivered(db: Db, after: Db, r: RequestId, row: Line)
    requires OneMoreLine(db, after, r, row) && row.requestId == r && row.stage == Requested
    ensures !Delivered(after, r)
  {
    assert after.lines[db.nextLine] == row;
  }

  // ── removing a line ──

  lemma RemovesExactlyWhen(db: Db, r: nat, l: LineId, actor: Actor)
    requires db.Valid()
    ensures var (after, result) := R.RemoveLine(db, r, l, actor);
      && result == (if r >= |db.requests| then Err(NotFound)
                    else if !MayTouch(actor, db.requests[r].opcoId) then Err(Forbidden)
                    else if l !in db.lines || db.lines[l].requestId != r then Err(NotFound)
                    else if db.lines[l].serviceNowSysId == None && db.lines[l].stage == Requested then Ok(l)
                    else Err(Conflict))
      && (result.Err? ==> after == db)
      && (result.Ok? ==>
            && r < |db.requests| && |after.requests| == |db.requests|
            && after == db.(lines := db.lines - {l}, events := db.events + [Note(r)], requests := after.requests)
            && after.requests == db.requests[r := db.requests[r].(status := after.requests[r].status)])
  {
    if r < |db.requests| {
      ScopeMeans(actor, db.requests[r].opcoId);
    }
    hide StagesOf, StatusOf, InScope, MayTouch;
  }

  // ── editing the header ──

  /** A header edit goes through unless it renames a user whose account has synced; each field is
      the one sent, or as it was; a note is written exactly when something changed. */
  lemma EditsExactlyWhen(db: Db, r: nat, patch: R.HeaderPatch, actor: Actor)
    requires db.Valid()
    ensures var (after, result) := R.UpdateHeader(db, r, patch, actor);
      && result == (if r >= |db.requests| then Err(NotFound)
                    else if !MayTouch(actor, db.requests[r].opcoId) then Err(Forbidden)
                    else if patch.targetUpn != None && db.requests[r].azureSyncedAt != None then Err(Conflict)
                    else Ok(r))
      && (result.Err? ==> after == db)
      && (result.Ok? ==> HeaderEdited(db, after, r, patch))
  {
    hide InScope, MayTouch, R.Patched, HeaderEdited, Db.Valid;
    if r < |db.requests| {
      ScopeMeans(actor, db.requests[r].opcoId);
      PatchEdits(db, r, patch);
    }
  }

  lemma PatchEdits(db: Db, r: RequestId, patch: R.HeaderPatch)
    requires r < |db.requests|
    ensures var row := R.Patched(db.requests[r], patch);
      && (row == db.requests[r] ==> HeaderEdited(db, db, r, patch))
      && (row != db.requests[r] ==> HeaderEdited(db, db.(requests := db.requests[r := row], events := db.events + [Note(r)]), r, patch))
      && row.opcoId == db.requests[r].opcoId && row.serviceNowSysId == db.requests[r].serviceNowSysId
  {
  }

  predicate HeaderEdited(db: Db, after: Db, r: RequestId, patch: R.HeaderPatch) {
    && r < |db.requests| && |after.requests| == |db.requests|
    && after == db.(requests := db.requests[r := after.requests[r]], events := after.events)
    && var prior := db.requests[r]; var row := after.requests[r];
    && row == prior.(targetUpn := row.targetUpn, targetDisplayName := row.targetDisplayName,
                  requesterEmail := row.requesterEmail, rawRequestText := row.rawRequestText)
    && row.targetUpn == (if patch.targetUpn.Some? then patch.targetUpn.value else prior.targetUpn)
    && row.targetDisplayName == (if patch.targetDisplayName.Some? then patch.targetDisplayName.value else prior.targetDisplayName)
    && row.requesterEmail == (if patch.requesterEmail.Some? then patch.requesterEmail.value else prior.requesterEmail)
    && row.rawRequestText == (if patch.rawRequestText.Some? then patch.rawRequestText.value else prior.rawRequestText)
    && after.events == (if row == prior then db.events else db.events + [Note(r)])
  }

  // ── filing a request ──

  /** The ServiceNow record is looked up when a number is given, and must be there. */
  predicate Asked(dto: R.IntakeDto) {
    dto.serviceNowNumber != None && dto.serviceNowNumber != Some("")
  }

  /** A request is filed if and only if its OpCo exists and is the actor's to touch, the record
      it names is found, and no request mirrors that record already. */
  lemma FilesExactlyWhen(db: Db, dto: R.IntakeDto, lookup: R.RecordLookup, actor: Actor)
    requires db.Valid()
    ensures var (after, result) := R.Intake(db, dto, lookup, actor);
      && result == (if dto.opcoId !in db.catalogue.opcos then Err(NotFound)
                    else if !MayTouch(actor, dto.opcoId) then Err(Forbidden)
                    else if Asked(dto) && lookup == R.LookupThrows then Err(Unavailable)
                    else if Asked(dto) && lookup == R.NoRecord then Err(NotFound)
                    else if Asked(dto) && lookup.sysId.Some? && lookup.sysId.value in db.requestBySysId then Err(DatabaseError)
                    else Ok(|db.requests|))
      && (result.Err? ==> after == db)
  {
    ScopeMeans(actor, dto.opcoId);
    hide InScope, MayTouch, Db.Valid, NumberedLines;
  }

  lemma FiledRow(db: Db, dto: R.IntakeDto, lookup: R.RecordLookup, actor: Actor)
    requires db.Valid() && R.Intake(db, dto, lookup, actor).1.Ok?
    ensures Filed(db, R.Intake(db, dto, lookup, actor).0, dto, lookup)
  {
    hide InScope, MayTouch, Db.Valid;
    assert db.lines + NumberedLines(|db.requests|, db.nextLine, []) == db.lines;
  }

  /** The row as sent; with a record, under its sysId and number, and its text where none was sent. */
  predicate Filed(db: Db, after: Db, dto: R.IntakeDto, lookup: R.RecordLookup) {
    && |after.requests| == |db.requests| + 1
    && after == db.(requests := db.requests + [after.requests[|db.requests|]], requestBySysId := after.requestBySysId)
    && var row := after.requests[|db.requests|];
    && row.targetUpn == dto.targetUpn && row.targetDisplayName == dto.targetDisplayName
    && row.opcoId == dto.opcoId && row.requesterEmail == dto.requesterEmail
    && row.status == Open && row.origin == OnboardingIntake
    && row.accountCreatedAt == None && row.azureSyncedAt == None && row.serviceNowUserSyncedAt == None
    && row.serviceNowUserSysId == None && row.serviceNowLicenceReqNumber == None
    && if Asked(dto) && lookup.Record? then
         && row.serviceNowSysId == lookup.sysId
         && row.serviceNowNumber == (if lookup.number == None then dto.serviceNowNumber else lookup.number)
         && row.rawRequestText == (if dto.rawRequestText == None then lookup.text else dto.rawRequestText)
       else
         && row.serviceNowSysId == None && row.serviceNowNumber == dto.serviceNowNumber && row.rawRequestText == dto.rawRequestText
  }
}
