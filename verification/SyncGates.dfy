/**
  The two sync gates of a request (apps/api/src/fulfilment/open-sync-gate.ts and
  `markSynced` in assign.service.ts).
 */
module SyncGates {
  import opened Wrappers
  import opened Database

  /** The write shared by the sweep, the on-demand check and the manual assertion. */
  function OpenAzure(db: Db, r: RequestId, now: Time): (after: Db)
    requires db.Valid() && r < |db.requests|
    ensures after.Valid()
  {
    var req := db.requests[r];
    var created := if req.accountCreatedAt.Some? then req.accountCreatedAt else Some(now);
    db.SetRequest(r, req.(azureSyncedAt := Some(now), accountCreatedAt := created)).AddEvent(Sync(r))
  }

  function OpenServiceNowUser(db: Db, r: RequestId, userSysId: string, now: Time): (after: Db)
    requires db.Valid() && r < |db.requests|
    ensures after.Valid()
  {
    var req := db.requests[r];
    db.SetRequest(r, req.(serviceNowUserSyncedAt := Some(now), serviceNowUserSysId := Some(userSysId))).AddEvent(Sync(r))
  }

  function MarkSynced(db: Db, r: nat, actor: Actor, now: Time): (out: (Db, Result<RequestId>))
    requires db.Valid()
    ensures out.0.Valid()
  {
    if r >= |db.requests| then (db, Err(NotFound))
    else if !InScope(actor, db.requests[r].opcoId) then (db, Err(Forbidden))
    else (OpenAzure(db, r, now), Ok(r))
  }

  method OpenSyncGate(db: Tables, r: RequestId, now: Time)
    requires db.State().Valid() && r < |db.requests|
    modifies db
    ensures db.State() == OpenAzure(old(db.State()), r, now)
  {
    var request := db.requests[r];
    var accountCreatedAt := request.accountCreatedAt;
    if accountCreatedAt == None {
      accountCreatedAt := Some(now);
    }
    db.requests := db.requests[r := request.(azureSyncedAt := Some(now), accountCreatedAt := accountCreatedAt)];
    db.events := db.events + [Sync(r)];
  }

  method OpenServiceNowUserGate(db: Tables, r: RequestId, userSysId: string, now: Time)
    requires db.State().Valid() && r < |db.requests|
    modifies db
    ensures db.State() == OpenServiceNowUser(old(db.State()), r, userSysId, now)
  {
    var request := db.requests[r];
    db.requests := db.requests[r := request.(serviceNowUserSyncedAt := Some(now), serviceNowUserSysId := Some(userSysId))];
    db.events := db.events + [Sync(r)];
  }

  method MarkRequestSynced(db: Tables, r: nat, actor: Actor, now: Time) returns (result: Result<RequestId>)
    requires db.State().Valid()
    modifies db
    ensures (db.State(), result) == MarkSynced(old(db.State()), r, actor, now)
  {
    if r >= |db.requests| {
      return Err(NotFound);
    }
    if !InScope(actor, db.requests[r].opcoId) {
      return Err(Forbidden);
    }
    OpenSyncGate(db, r, now);
    return Ok(r);
  }
}
