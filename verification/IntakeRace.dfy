/**
  Any number of intake calls for one REQ, interleaved at every database access
  (apps/api/src/fulfilment/intake.service.ts).
 */
module IntakeRace {
  import opened Wrappers
  import opened Stages
  import opened Database
  import opened History
  import opened IntakeService

  /** Where one call stands: not started, resolved and about to create, refused by the
      unique constraint, or over. */
  datatype Phase =
    | Started
    | Resolved(row: Request, newLines: seq<NewLine>)
    | Refused
    | Over(result: Result<RequestId>)

  datatype Race = Race(db: Db, phases: seq<Phase>)

  /** One database access by one call, or anything else the platform does meanwhile. */
  datatype Move = Find(call: nat) | Store(call: nat, writeFails: bool) | Recover(call: nat) | Elsewhere(after: Db)

  /** The dtos differ as they please; the REQ is the same. */
  predicate OneReq(dtos: seq<IntakeDto>, sysId: string) {
    forall i :: 0 <= i < |dtos| ==> dtos[i].serviceNowSysId == sysId
  }

  function Begin(db: Db, n: nat): Race {
    Race(db, seq(n, _ => Started))
  }

  ghost predicate Valid(race: Race, dtos: seq<IntakeDto>) {
    && race.db.Valid()
    && |race.phases| == |dtos|
    && forall i :: 0 <= i < |dtos| && race.phases[i].Resolved? ==>
         Resolve(race.db, dtos[i]) == Ok((race.phases[i].row, race.phases[i].newLines))
  }

  function To(race: Race, i: nat, phase: Phase): Race
    requires i < |race.phases|
  {
    race.(phases := race.phases[i := phase])
  }

  function AfterFind(db: Db, dto: IntakeDto): Phase {
    if FindByReq(db, dto.serviceNowSysId).Some? then Over(Ok(FindByReq(db, dto.serviceNowSysId).value))
    else
      match Resolve(db, dto)
      case Err(e) => Over(Err(e))
      case Ok((row, newLines)) => Phase.Resolved(row, newLines)
  }

  function AfterRecover(db: Db, dto: IntakeDto): Phase {
    match FindByReq(db, dto.serviceNowSysId)
    case Some(winner) => Over(Ok(winner))
    case None => Over(Err(DatabaseError))
  }

  ghost function Next(race: Race, dtos: seq<IntakeDto>, m: Move): (after: Race)
    requires Valid(race, dtos)
  {
    var db := race.db;
    match m
    case Find(i) => if i < |dtos| && race.phases[i] == Started then To(race, i, AfterFind(db, dtos[i])) else race
    case Store(i, writeFails) =>
      if i < |dtos| && race.phases[i].Resolved? then
        var phase := race.phases[i];
        var (after, result) := Create(db, dtos[i], phase.row, phase.newLines, writeFails);
        if db.SysIdTaken(phase.row.serviceNowSysId) && !writeFails then To(race, i, Refused)
        else To(race.(db := after), i, Over(result))
      else race
    case Recover(i) => if i < |dtos| && race.phases[i] == Refused then To(race, i, AfterRecover(db, dtos[i])) else race
    case Elsewhere(after) => if after.Valid() && Evolves(db, after) then race.(db := after) else race
  }

  /** What the schedule cannot break: a refused call will find the request that beat it,
      and a call that succeeded returned the request the REQ still leads to. */
  ghost predicate Agreed(race: Race, sysId: string) {
    forall i :: 0 <= i < |race.phases| ==>
      match race.phases[i]
      case Refused => sysId in race.db.requestBySysId
      case Over(Ok(r)) => FindByReq(race.db, sysId) == Some(r)
      case _ => true
  }

  lemma LaterFindsTheSame(before: Db, after: Db, sysId: string)
    requires before.Valid() && after.Valid() && Evolves(before, after) && sysId in before.requestBySysId
    ensures FindByReq(after, sysId) == FindByReq(before, sysId)
  {
    var r := before.requestBySysId[sysId];
    assert RequestEvolves(before.requests[r], after.requests[r]);
  }

  lemma CreateKeepsOthers(db: Db, dto: IntakeDto, row: Request, newLines: seq<NewLine>, writeFails: bool)
    requires db.Valid() && Resolve(db, dto) == Ok((row, newLines))
    ensures var (after, result) := Create(db, dto, row, newLines, writeFails);
      && after.catalogue == db.catalogue
      && (result.Ok? ==> FindByReq(db, dto.serviceNowSysId).None? && FindByReq(after, dto.serviceNowSysId) == Some(result.value))
      && (result.Err? ==> after == db)
  {
    hide Db.Valid, NumberedLines;
  }

  lemma StoreKeepsAgreement(race: Race, dtos: seq<IntakeDto>, sysId: string, i: nat, writeFails: bool)
    requires Valid(race, dtos) && OneReq(dtos, sysId) && Agreed(race, sysId) && i < |dtos| && race.phases[i].Resolved?
    ensures var after := Next(race, dtos, Store(i, writeFails)); Valid(after, dtos) && Agreed(after, sysId)
  {
    CreateKeepsOthers(race.db, dtos[i], race.phases[i].row, race.phases[i].newLines, writeFails);
    hide Create, Db.Valid;
  }

  lemma NextKeepsAgreement(race: Race, dtos: seq<IntakeDto>, sysId: string, m: Move)
    requires Valid(race, dtos) && OneReq(dtos, sysId) && Agreed(race, sysId)
    ensures Valid(Next(race, dtos, m), dtos) && Agreed(Next(race, dtos, m), sysId)
  {
    hide Create;
    match m
    case Find(i) =>
    case Store(i, writeFails) =>
      if i < |dtos| && race.phases[i].Resolved? {
        StoreKeepsAgreement(race, dtos, sysId, i, writeFails);
      }
    case Recover(i) =>
    case Elsewhere(after) =>
      if after.Valid() && Evolves(race.db, after) && sysId in race.db.requestBySysId {
        LaterFindsTheSame(race.db, after, sysId);
      }
  }

  ghost function Run(race: Race, dtos: seq<IntakeDto>, sysId: string, moves: seq<Move>): (after: Race)
    requires Valid(race, dtos) && OneReq(dtos, sysId) && Agreed(race, sysId)
    ensures Valid(after, dtos) && Agreed(after, sysId)
    decreases |moves|
  {
    if moves == [] then race
    else NextKeepsAgreement(race, dtos, sysId, moves[0]); Run(Next(race, dtos, moves[0]), dtos, sysId, moves[1..])
  }

  lemma BeginAgrees(db: Db, dtos: seq<IntakeDto>, sysId: string)
    requires db.Valid()
    ensures Valid(Begin(db, |dtos|), dtos) && Agreed(Begin(db, |dtos|), sysId)
  {
  }

  /** Under every schedule: the calls that complete all return the one request with this REQ,
      and there is exactly one as soon as any has. */
  lemma CompletedCallsShareOneRequest(db: Db, dtos: seq<IntakeDto>, sysId: string, moves: seq<Move>)
    requires db.Valid() && OneReq(dtos, sysId)
    ensures Valid(Begin(db, |dtos|), dtos) && Agreed(Begin(db, |dtos|), sysId)
    ensures var after := Run(Begin(db, |dtos|), dtos, sysId, moves);
      forall i :: 0 <= i < |dtos| && after.phases[i].Over? && after.phases[i].result.Ok? ==>
        var r := after.phases[i].result.value;
        && r < |after.db.requests| && after.db.requests[r].serviceNowSysId == Some(sysId)
        && (forall other :: 0 <= other < |after.db.requests| && after.db.requests[other].serviceNowSysId == Some(sysId) ==> other == r)
        && (forall j :: 0 <= j < |dtos| && after.phases[j].Over? && after.phases[j].result.Ok? ==> after.phases[j].result.value == r)
  {
    BeginAgrees(db, dtos, sysId);
    var after := Run(Begin(db, |dtos|), dtos, sysId, moves);
    assert Valid(after, dtos) && Agreed(after, sysId);
  }

  /** Losing the race is never an error: a call the constraint refused recovers the winner. */
  lemma RefusedCallsRecover(race: Race, dtos: seq<IntakeDto>, sysId: string, i: nat)
    requires Valid(race, dtos) && OneReq(dtos, sysId) && Agreed(race, sysId) && i < |dtos| && race.phases[i] == Refused
    ensures var phase := Next(race, dtos, Recover(i)).phases[i];
      && phase.Over? && phase.result.Ok? && phase.result.value < |race.db.requests|
      && race.db.requests[phase.result.value].serviceNowSysId == Some(sysId)
  {
    hide Resolve, Create;
  }

  /** A call that ended with a database error. */
  predicate Failed(phase: Phase) {
    phase.Over? && phase.result == Err(DatabaseError)
  }

  /** A call fails with a database error only when its own write did. */
  lemma OnlyOwnWritesFail(race: Race, dtos: seq<IntakeDto>, sysId: string, m: Move, i: nat)
    requires Valid(race, dtos) && OneReq(dtos, sysId) && Agreed(race, sysId) && i < |dtos|
    requires !Failed(race.phases[i]) && Failed(Next(race, dtos, m).phases[i])
    ensures m == Store(i, true)
  {
    hide Db.Valid, Db.CreateRequest;
  }

  /** One call left alone goes through the interleaved steps to the result of `Intake`. */
  lemma AloneItIsIntake(db: Db, dto: IntakeDto, writeFails: bool)
    requires db.Valid() && Valid(Begin(db, 1), [dto]) && Agreed(Begin(db, 1), dto.serviceNowSysId)
    ensures var after := Run(Begin(db, 1), [dto], dto.serviceNowSysId, [Find(0), Store(0, writeFails), Recover(0)]);
      && after.phases == [Over(Intake(db, dto, writeFails).1)]
      && after.db == Intake(db, dto, writeFails).0
  {
    var dtos, sysId := [dto], dto.serviceNowSysId;
    var start := Begin(db, 1);
    NextKeepsAgreement(start, dtos, sysId, Find(0));
    var found := Next(start, dtos, Find(0));
    NextKeepsAgreement(found, dtos, sysId, Store(0, writeFails));
    var stored := Next(found, dtos, Store(0, writeFails));
    NextKeepsAgreement(stored, dtos, sysId, Recover(0));
    AloneStepByStep(db, dto, writeFails);
    hide Next, Valid, Agreed;
    var moves := [Find(0), Store(0, writeFails), Recover(0)];
    assert moves[1..] == [Store(0, writeFails), Recover(0)] && moves[1..][1..] == [Recover(0)] && moves[1..][1..][1..] == [];
    assert Run(start, dtos, sysId, moves) == Run(found, dtos, sysId, moves[1..]);
    assert Run(found, dtos, sysId, moves[1..]) == Run(stored, dtos, sysId, moves[1..][1..]);
    assert Run(stored, dtos, sysId, moves[1..][1..]) == Run(Next(stored, dtos, Recover(0)), dtos, sysId, []);
  }

  lemma AloneStepByStep(db: Db, dto: IntakeDto, writeFails: bool)
    requires db.Valid() && Valid(Begin(db, 1), [dto]) && Agreed(Begin(db, 1), dto.serviceNowSysId)
    requires Valid(Next(Begin(db, 1), [dto], Find(0)), [dto])
    requires Valid(Next(Next(Begin(db, 1), [dto], Find(0)), [dto], Store(0, writeFails)), [dto])
    ensures Next(Next(Next(Begin(db, 1), [dto], Find(0)), [dto], Store(0, writeFails)), [dto], Recover(0))
         == Race(Intake(db, dto, writeFails).0, [Over(Intake(db, dto, writeFails).1)])
  {
    hide Db.Valid, Db.CreateRequest, Agreed, Valid;
  }
}
