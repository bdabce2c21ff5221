/** Stage moves on their own (apps/api/src/fulfilment/stage.service.ts). */
module StageService {
  import opened Wrappers
  import opened Stages
  import opened Database

  /** What advancing one line does to the tables, or the exception it throws. */
  function Advance(db: Db, l: LineId, toStage: Stage, actor: Actor, now: Time): (out: (Db, Result<LineId>))
    requires db.Valid()
    ensures out.0.Valid()
  {
    if l !in db.lines then (db, Err(NotFound))
    else
      var item := db.lines[l];
      if !InScope(actor, db.requests[item.requestId].opcoId) then (db, Err(Forbidden))
      else if toStage !in LegalTransitions(item.stage) - {Assigned} then (db, Err(BadRequest))
      else
        var event := StageChange(item.requestId, l, item.stage, toStage);
        (db.MoveLine(l, toStage, event, now).Recompute(item.requestId), Ok(l))
  }

  /** An advance that goes through writes one line, one timeline row and one status. */
  lemma AdvanceWrites(db: Db, l: LineId, toStage: Stage, actor: Actor, now: Time)
    requires db.Valid()
    ensures var (after, result) := Advance(db, l, toStage, actor, now);
      if result.Err? then after == db
      else
        && l in db.lines && db.lines[l].requestId < |db.requests| && |after.requests| == |db.requests| && l in after.lines
        && toStage in LegalTransitions(db.lines[l].stage)
        && var r := db.lines[l].requestId;
        && after == db.(requests := after.requests, lines := after.lines, events := db.events + [StageChange(r, l, db.lines[l].stage, toStage)])
        && after.requests == db.requests[r := db.requests[r].(status := after.requests[r].status)]
        && after.lines == db.lines[l := db.lines[l].(stage := after.lines[l].stage, stampedAt := after.lines[l].stampedAt)]
  {
    hide StagesOf, StatusOf, Stamped;
  }

  class Service {
    const db: Tables

    constructor (db: Tables)
      ensures this.db == db
    {
      this.db := db;
    }

    method AdvanceStage(l: LineId, toStage: Stage, actor: Actor, now: Time) returns (result: Result<LineId>)
      requires db.State().Valid()
      modifies db
      ensures (db.State(), result) == Advance(old(db.State()), l, toStage, actor, now)
    {
      hide StagesOf, StatusOf;
      if l !in db.lines {
        return Err(NotFound);
      }
      var item := db.lines[l];
      if !InScope(actor, db.requests[item.requestId].opcoId) {
        return Err(Forbidden);
      }
      if toStage == Assigned {
        return Err(BadRequest);
      }
      if toStage !in LegalTransitions(item.stage) {
        return Err(BadRequest);
      }
      hide Stamped;
      MoveStage(l, toStage, now);
      return Ok(l);
    }

    /** The stage and its stamp, the timeline row, the request's status. */
    method MoveStage(l: LineId, toStage: Stage, now: Time)
      requires db.State().Valid() && l in db.lines
      modifies db
      ensures var before := old(db.State()); var item := before.lines[l];
        db.State() == before.MoveLine(l, toStage, StageChange(item.requestId, l, item.stage, toStage), now).Recompute(item.requestId)
    {
      hide StagesOf, StatusOf;
      var item := db.lines[l];
      var fromStage := item.stage;
      var stampedAt := item.stampedAt;
      if Stamped(toStage) {
        stampedAt := stampedAt[toStage := now];
      }
      db.lines := db.lines[l := item.(stage := toStage, stampedAt := stampedAt)];
      db.events := db.events + [StageChange(item.requestId, l, fromStage, toStage)];
      var _ := RecomputeRequestStatus(item.requestId);
    }

    /** Re-derive and store a request's status from its current lines. */
    method RecomputeRequestStatus(r: RequestId) returns (status: RequestStatus)
      requires db.State().Valid() && r < |db.requests|
      modifies db
      ensures db.State() == old(db.State()).Recompute(r)
      ensures status == StatusOf(StagesOf(db.lines, r)) == db.requests[r].status
    {
      var stages := db.FindStages(r);
      status := AggregateRequestStatus(stages);
      AggregateIgnoresOrder(stages);
      db.requests := db.requests[r := db.requests[r].(status := status)];
    }
  }
}
