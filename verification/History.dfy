/**
  What every reachable state of the tables satisfies: the cached status agrees with
  its lines, the timeline replays to the rows, the gates stay open.
 */
module History {
  import opened Wrappers
  import opened Stages
  import opened Database

  /** request.status is never a stale copy. */
  ghost predicate StatusAgrees(db: Db) {
    forall r :: 0 <= r < |db.requests| ==> db.requests[r].status == StatusOf(StagesOf(db.lines, r))
  }

  /** Where a line's timeline has brought it, and the timestamps it has earned. */
  datatype Position = Position(stage: Stage, stamped: set<Stage>)

  const START := Position(Requested, {})

  /** One timeline row read for line `l` of request `r`: `None` as soon as a row does not
      continue the path, or moves along an edge the graph lacks. */
  function Advance(before: Option<Position>, e: Event, r: RequestId, l: LineId): Option<Position> {
    match e
    case StageChange(er, el, fromStage, toStage) =>
      if el != l then before
      else if before.Some? && er == r && before.value.stage == fromStage && toStage in LegalTransitions(fromStage) then
        Some(Position(toStage, before.value.stamped + (if Stamped(toStage) then {toStage} else {})))
      else None
    case Assign(er, el, _) =>
      if el != l then before
      else if before.Some? && er == r && before.value.stage == Ready then
        Some(Position(Assigned, before.value.stamped + {Assigned}))
      else None
    case Sync(_) => before
    case Note(_) => before
  }

  /** Follow one line's STAGE_CHANGE and ASSIGN rows from REQUESTED. */
  function Replay(events: seq<Event>, r: RequestId, l: LineId): Option<Position> {
    if events == [] then Some(START)
    else Advance(Replay(events[..|events| - 1], r, l), events[|events| - 1], r, l)
  }

  ghost predicate TimelineAgrees(db: Db) {
    forall l :: l in db.lines ==>
      Replay(db.events, db.lines[l].requestId, l) == Some(Position(db.lines[l].stage, db.lines[l].stampedAt.Keys))
  }

  /** Every ASSIGN row names a line that is still there, assigned, under its request. */
  ghost predicate AssignsStand(db: Db) {
    forall e :: e in db.events && e.Assign? ==>
      e.lineId in db.lines && db.lines[e.lineId].stage == Assigned && db.lines[e.lineId].requestId == e.requestId
  }

  ghost predicate GatesOpen(db: Db, r: nat) {
    r < |db.requests| && db.requests[r].azureSyncedAt.Some? && db.requests[r].serviceNowUserSyncedAt.Some?
  }

  /** No line is assigned before both sync gates of its request are open. */
  ghost predicate GatesPassed(db: Db) {
    forall l :: l in db.lines && db.lines[l].stage == Assigned ==> GatesOpen(db, db.lines[l].requestId)
  }

  ghost predicate Sound(db: Db) {
    db.Valid() && StatusAgrees(db) && TimelineAgrees(db) && AssignsStand(db) && GatesPassed(db)
  }

  /** How a request may change between two states: it keeps its OpCo and its ServiceNow
      record, an open gate stays open, the UPN is frozen once the account has synced,
      and a completed request stays completed. */
  ghost predicate RequestEvolves(before: Request, after: Request) {
    && after.opcoId == before.opcoId
    && after.serviceNowSysId == before.serviceNowSysId
    && (before.azureSyncedAt.Some? ==> after.azureSyncedAt.Some? && after.targetUpn == before.targetUpn)
    && (before.serviceNowUserSyncedAt.Some? ==> after.serviceNowUserSyncedAt.Some?)
    && (before.status == Completed ==> after.status == Completed)
  }

  ghost predicate Evolves(before: Db, after: Db) {
    && after.catalogue == before.catalogue
    && |before.requests| <= |after.requests|
    && forall r :: 0 <= r < |before.requests| ==> RequestEvolves(before.requests[r], after.requests[r])
  }

  // ── the kinds of change a call can make ──

  predicate SameLine(x: Line, y: Line) {
    x.requestId == y.requestId && x.skuCatalogId == y.skuCatalogId && x.stage == y.stage && x.stampedAt == y.stampedAt
  }

  predicate Silent(e: Event) {
    e.Sync? || e.Note?
  }

  /** Rows may change, but no stage, no seat and no status moves. */
  ghost predicate Quiet(before: Db, after: Db) {
    && after.catalogue == before.catalogue
    && |after.requests| == |before.requests|
    && (forall r :: 0 <= r < |before.requests| ==>
          RequestEvolves(before.requests[r], after.requests[r]) && after.requests[r].status == before.requests[r].status)
    && after.lines.Keys == before.lines.Keys
    && (forall l :: l in before.lines ==> SameLine(before.lines[l], after.lines[l]))
    && after.nextLine == before.nextLine
    && after.ledger == before.ledger
    && before.events <= after.events
    && (forall i :: |before.events| <= i < |after.events| ==> Silent(after.events[i]))
  }

  /** `r`'s lines are the same lines, at the same stages. */
  lemma SameStages(lines: map<LineId, Line>, lines': map<LineId, Line>, r: RequestId)
    requires forall l :: l in lines && lines[l].requestId == r ==>
      l in lines' && lines'[l].requestId == r && lines'[l].stage == lines[l].stage
    requires forall l :: l in lines' && lines'[l].requestId == r ==> l in lines && lines[l].requestId == r
    ensures StagesOf(lines, r) == StagesOf(lines', r)
  {
  }

  lemma {:induction false} SilentRowsDoNotMove(events: seq<Event>, more: seq<Event>, r: RequestId, l: LineId)
    requires forall i :: 0 <= i < |more| ==> Silent(more[i])
    ensures Replay(events + more, r, l) == Replay(events, r, l)
  {
    if more == [] {
      assert events + more == events;
    } else {
      var last := |more| - 1;
      assert (events + more)[..|events + more| - 1] == events + more[..last];
      SilentRowsDoNotMove(events, more[..last], r, l);
    }
  }

  /** A line no row mentions is where it started. */
  lemma {:induction false} UnmentionedLineIsAtStart(events: seq<Event>, r: RequestId, l: LineId)
    requires forall e :: e in events && (e.StageChange? || e.Assign?) ==> e.lineId != l
    ensures Replay(events, r, l) == Some(START)
  {
    if events != [] {
      UnmentionedLineIsAtStart(events[..|events| - 1], r, l);
      assert events[|events| - 1] in events;
    }
  }

  lemma ReplayStep(events: seq<Event>, e: Event, r: RequestId, l: LineId)
    ensures Replay(events + [e], r, l) == Advance(Replay(events, r, l), e, r, l)
  {
    assert (events + [e])[..|events|] == events;
  }

  /** The parts of validity the proofs below lean on. */
  lemma IdsInRange(db: Db)
    requires db.Valid()
    ensures forall l :: l in db.lines ==> l < db.nextLine && db.lines[l].requestId < |db.requests|
    ensures forall e :: e in db.events && (e.StageChange? || e.Assign?) ==> e.lineId < db.nextLine
  {
  }

  lemma QuietKeepsSound(before: Db, after: Db)
    requires Sound(before) && after.Valid() && Quiet(before, after)
    ensures Sound(after) && Evolves(before, after)
  {
    hide Replay, Db.Valid;
    forall r | 0 <= r < |after.requests| ensures after.requests[r].status == StatusOf(StagesOf(after.lines, r)) {
      SameStages(before.lines, after.lines, r);
    }
    var more := after.events[|before.events|..];
    assert after.events == before.events + more;
    forall l | l in after.lines
      ensures Replay(after.events, after.lines[l].requestId, l) == Some(Position(after.lines[l].stage, after.lines[l].stampedAt.Keys))
    {
      SilentRowsDoNotMove(before.events, more, after.lines[l].requestId, l);
      assert SameLine(before.lines[l], after.lines[l]);
    }
    forall e | e in after.events && e.Assign?
      ensures e.lineId in after.lines && after.lines[e.lineId].stage == Assigned && after.lines[e.lineId].requestId == e.requestId
    {
      assert e in before.events || e in more;
      assert e in before.events;
      assert SameLine(before.lines[e.lineId], after.lines[e.lineId]);
    }
    forall l | l in after.lines && after.lines[l].stage == Assigned ensures GatesOpen(after, after.lines[l].requestId) {
      assert SameLine(before.lines[l], after.lines[l]);
      assert GatesOpen(before, before.lines[l].requestId);
      assert RequestEvolves(before.requests[before.lines[l].requestId], after.requests[before.lines[l].requestId]);
    }
  }

  /** Queue rows and a note are quiet. */
  lemma RecordsAreQuiet(db: Db, after: Db, r: RequestId)
    requires after == db.(events := after.events, failures := after.failures)
    requires after.events == db.events || after.events == db.events + [Note(r)]
    ensures Quiet(db, after)
  {
  }

  /** One request row edited within the rules, and a silent timeline row. */
  lemma EditKeepsSound(db: Db, r: nat, req: Request, e: Event)
    requires Sound(db) && r < |db.requests| && Silent(e) && e.requestId == r
    requires RequestEvolves(db.requests[r], req) && req.status == db.requests[r].status
    ensures var after := db.SetRequest(r, req).AddEvent(e); Sound(after) && Evolves(db, after)
  {
    assert db.Valid();
    hide Sound, Quiet, RequestEvolves, Db.Valid;
    var after := db.SetRequest(r, req).AddEvent(e);
    EditIsQuiet(db, after, r, req, e);
    QuietKeepsSound(db, after);
    hide Db.SetRequest, Db.AddEvent;
  }

  lemma EditIsQuiet(db: Db, after: Db, r: nat, req: Request, e: Event)
    requires r < |db.requests| && Silent(e) && RequestEvolves(db.requests[r], req) && req.status == db.requests[r].status
    requires after == db.(requests := db.requests[r := req], events := db.events + [e])
    ensures Quiet(db, after)
  {
  }

  lemma OnlyRequestedIsOpen(stages: set<Stage>)
    requires stages <= {Requested}
    ensures StatusOf(stages) == Open
  {
    assert stages != {} ==> Requested in stages;
  }

  /** A created request starts OPEN, and its lines start at REQUESTED. */
  lemma CreateKeepsSound(before: Db, req: Request, newLines: seq<NewLine>)
    requires Sound(before) && req.opcoId in before.catalogue.opcos && before.ValidLines(newLines)
    requires !before.SysIdTaken(req.serviceNowSysId) && req.status == Open
    ensures Sound(before.CreateRequest(req, newLines)) && Evolves(before, before.CreateRequest(req, newLines))
  {
    CreateKeepsStatus(before, req, newLines);
    CreateKeepsTimeline(before, req, newLines);
    IdsInRange(before);
    hide Replay, Db.Valid, StatusAgrees, TimelineAgrees;
  }

  /** The lines of a created request are the only new ones. */
  lemma CreatedLines(before: Db, req: Request, newLines: seq<NewLine>)
    requires before.Valid() && req.opcoId in before.catalogue.opcos && before.ValidLines(newLines) && !before.SysIdTaken(req.serviceNowSysId)
    ensures var after := before.CreateRequest(req, newLines);
      && after.requests == before.requests + [req]
      && (forall l :: l in before.lines ==> l in after.lines && after.lines[l] == before.lines[l])
      && (forall l :: l in after.lines && l !in before.lines ==>
            after.lines[l].requestId == |before.requests| && after.lines[l].stage == Requested)
  {
    IdsInRange(before);
    hide Db.Valid;
  }

  lemma CreateKeepsStatus(before: Db, req: Request, newLines: seq<NewLine>)
    requires Sound(before) && req.opcoId in before.catalogue.opcos && before.ValidLines(newLines)
    requires !before.SysIdTaken(req.serviceNowSysId) && req.status == Open
    ensures StatusAgrees(before.CreateRequest(req, newLines))
  {
    IdsInRange(before);
    CreatedLines(before, req, newLines);
    hide Replay, Db.Valid, Db.CreateRequest, StatusOf, TimelineAgrees, AssignsStand, GatesPassed;
    var after := before.CreateRequest(req, newLines);
    var added := |before.requests|;
    forall r | 0 <= r < added ensures after.requests[r].status == StatusOf(StagesOf(after.lines, r)) {
      SameStages(before.lines, after.lines, r);
    }
    OnlyRequestedIsOpen(StagesOf(after.lines, added));
  }

  lemma CreateKeepsTimeline(before: Db, req: Request, newLines: seq<NewLine>)
    requires Sound(before) && req.opcoId in before.catalogue.opcos && before.ValidLines(newLines)
    requires !before.SysIdTaken(req.serviceNowSysId)
    ensures TimelineAgrees(before.CreateRequest(req, newLines))
  {
    IdsInRange(before);
    hide Replay, Db.Valid, StatusAgrees, AssignsStand, GatesPassed;
    var after := before.CreateRequest(req, newLines);
    var added := |before.requests|;
    forall l | l in after.lines
      ensures Replay(after.events, after.lines[l].requestId, l) == Some(Position(after.lines[l].stage, after.lines[l].stampedAt.Keys))
    {
      if before.nextLine <= l {
        UnmentionedLineIsAtStart(before.events, added, l);
        assert after.lines[l].stampedAt.Keys == {};
      }
    }
  }

  /** Authoring a line on a request that is not complete. */
  lemma InsertKeepsSound(before: Db, r: RequestId, n: NewLine)
    requires Sound(before) && r < |before.requests| && n.skuCatalogId in before.catalogue.skus
    requires before.requests[r].status != Completed
    ensures var after := before.InsertLine(r, n).AddEvent(Note(r)).Recompute(r); Sound(after) && Evolves(before, after)
  {
    hide Replay, Db.Valid;
    IdsInRange(before);
    var after := before.InsertLine(r, n).AddEvent(Note(r)).Recompute(r);
    forall other | 0 <= other < |after.requests| && other != r
      ensures after.requests[other].status == StatusOf(StagesOf(after.lines, other))
    {
      SameStages(before.lines, after.lines, other);
    }
    forall l | l in after.lines
      ensures Replay(after.events, after.lines[l].requestId, l) == Some(Position(after.lines[l].stage, after.lines[l].stampedAt.Keys))
    {
      ReplayStep(before.events, Note(r), after.lines[l].requestId, l);
      if l == before.nextLine {
        UnmentionedLineIsAtStart(before.events, r, l);
        assert after.lines[l].stampedAt.Keys == {};
      }
    }
  }

  /** Removing a line that has not left REQUESTED. */
  lemma DeleteKeepsSound(before: Db, l: LineId)
    requires Sound(before) && l in before.lines && before.lines[l].stage == Requested
    ensures var r := before.lines[l].requestId; var after := before.DeleteLine(l).AddEvent(Note(r)).Recompute(r);
      Sound(after) && Evolves(before, after)
  {
    hide Replay, Db.Valid;
    IdsInRange(before);
    var r := before.lines[l].requestId;
    var after := before.DeleteLine(l).AddEvent(Note(r)).Recompute(r);
    assert Requested in StagesOf(before.lines, r);
    forall other | 0 <= other < |after.requests| && other != r
      ensures after.requests[other].status == StatusOf(StagesOf(after.lines, other))
    {
      SameStages(before.lines, after.lines, other);
    }
    forall k | k in after.lines
      ensures Replay(after.events, after.lines[k].requestId, k) == Some(Position(after.lines[k].stage, after.lines[k].stampedAt.Keys))
    {
      ReplayStep(before.events, Note(r), after.lines[k].requestId, k);
    }
  }

  /** The stage moves there are: an edge of the graph, or READY to ASSIGNED past both gates. */
  ghost predicate LegalMove(db: Db, l: LineId, toStage: Stage, e: Event)
    requires db.Valid() && l in db.lines
  {
    var item := db.lines[l];
    || (toStage in LegalTransitions(item.stage) - {Assigned} && e == StageChange(item.requestId, l, item.stage, toStage))
    || (item.stage == Ready && toStage == Assigned && e.Assign? && e.requestId == item.requestId && e.lineId == l
        && GatesOpen(db, item.requestId))
  }

  /** The path grows by exactly the move that was made; no other line's path changes. */
  lemma MoveExtendsTheTimeline(before: Db, l: LineId, toStage: Stage, e: Event, now: Time)
    requires Sound(before) && l in before.lines && LegalMove(before, l, toStage, e)
    ensures TimelineAgrees(before.MoveLine(l, toStage, e, now))
  {
    hide Replay, StagesOf, StatusOf, Db.Valid;
    IdsInRange(before);
    var after := before.MoveLine(l, toStage, e, now);
    forall k | k in after.lines
      ensures Replay(after.events, after.lines[k].requestId, k) == Some(Position(after.lines[k].stage, after.lines[k].stampedAt.Keys))
    {
      ReplayStep(before.events, e, after.lines[k].requestId, k);
      if k == l {
        assert after.lines[l].stampedAt.Keys == before.lines[l].stampedAt.Keys + (if Stamped(toStage) then {toStage} else {});
      }
    }
  }

  /** A move writes one line's stage and one request's status. */
  lemma MovedOnce(before: Db, l: LineId, toStage: Stage, e: Event, now: Time)
    requires before.Valid() && l in before.lines && LegalMove(before, l, toStage, e)
    ensures var r := before.lines[l].requestId; var after := before.MoveLine(l, toStage, e, now).Recompute(r);
      && r < |before.requests| && after.catalogue == before.catalogue
      && after.requests == before.requests[r := before.requests[r].(status := StatusOf(StagesOf(after.lines, r)))]
      && after.lines.Keys == before.lines.Keys
      && (forall k :: k in before.lines ==> after.lines[k].requestId == before.lines[k].requestId)
      && (forall k :: k in before.lines && k != l ==> after.lines[k].stage == before.lines[k].stage)
  {
    IdsInRange(before);
    hide StagesOf, StatusOf, Db.Valid;
  }

  lemma MoveKeepsStatus(before: Db, l: LineId, toStage: Stage, e: Event, now: Time)
    requires Sound(before) && l in before.lines && LegalMove(before, l, toStage, e)
    ensures var after := before.MoveLine(l, toStage, e, now).Recompute(before.lines[l].requestId);
      StatusAgrees(after) && Evolves(before, after)
  {
    CompletionStays(before, l, toStage, e);
    MovedOnce(before, l, toStage, e, now);
    hide Replay, TimelineAgrees, AssignsStand, GatesPassed, LegalMove, StatusOf, StagesOf, Db.Valid, Db.MoveLine, Db.Recompute;
    var r := before.lines[l].requestId;
    var after := before.MoveLine(l, toStage, e, now).Recompute(r);
    forall other | 0 <= other < |after.requests| && other != r
      ensures after.requests[other].status == StatusOf(StagesOf(after.lines, other))
    {
      SameStages(before.lines, after.lines, other);
    }
  }

  /** A completed request has no line left that could move. */
  lemma CompletionStays(db: Db, l: LineId, toStage: Stage, e: Event)
    requires Sound(db) && l in db.lines && LegalMove(db, l, toStage, e)
    ensures db.lines[l].requestId < |db.requests| && db.requests[db.lines[l].requestId].status != Completed
  {
    IdsInRange(db);
    hide TimelineAgrees, AssignsStand, GatesPassed, Db.Valid;
    assert db.lines[l].stage in StagesOf(db.lines, db.lines[l].requestId);
  }

  lemma MoveKeepsSound(before: Db, l: LineId, toStage: Stage, e: Event, now: Time)
    requires Sound(before) && l in before.lines && LegalMove(before, l, toStage, e)
    ensures var after := before.MoveLine(l, toStage, e, now).Recompute(before.lines[l].requestId);
      Sound(after) && Evolves(before, after)
  {
    hide Replay, StagesOf, StatusOf, Db.Valid;
    IdsInRange(before);
    MoveExtendsTheTimeline(before, l, toStage, e, now);
    MoveKeepsStatus(before, l, toStage, e, now);
  }
}
