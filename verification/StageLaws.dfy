/**
  The stage graph, stage by stage: which moves are made and refused, and every path a line's
  timeline can show.
 */
module StageLaws {
  import opened Wrappers
  import opened Stages
  import opened Database
  import opened History
  import opened Terms
  import StageService

  // ── one move ──

  /** The moves made by hand, one by one. */
  predicate CanMove(from: Stage, to: Stage) {
    match from
    case Requested => to == Quoting || to == Ready || to == Cancelled
    case Quoting => to == OpcoApproved || to == Cancelled
    case OpcoApproved => to == AwaitingVendor || to == Cancelled
    case AwaitingVendor => to == Ready || to == Cancelled
    case Ready => to == Cancelled
    case Assigned => false
    case Cancelled => false
  }

  lemma CanMoveMeans(from: Stage, to: Stage)
    ensures CanMove(from, to) <==> to in LegalTransitions(from) && to != Assigned
  {
  }

  /** An advance goes through if and only if the line exists, the actor may touch it and the move
      is one of those; otherwise it is refused with its own error and nothing changes. */
  lemma AdvancesExactlyWhen(db: Db, l: LineId, to: Stage, actor: Actor, now: Time)
    requires db.Valid()
    ensures var (after, result) := StageService.Advance(db, l, to, actor, now);
      && result == (if l !in db.lines then Err(NotFound)
                    else if !MayTouch(actor, db.requests[db.lines[l].requestId].opcoId) then Err(Forbidden)
                    else if !CanMove(db.lines[l].stage, to) then Err(BadRequest)
                    else Ok(l))
      && (result.Err? ==> after == db)
  {
    if l in db.lines {
      ScopeMeans(actor, db.requests[db.lines[l].requestId].opcoId);
      CanMoveMeans(db.lines[l].stage, to);
    }
    hide StagesOf, StatusOf, LegalTransitions, CanMove, InScope, MayTouch;
  }

  /** What an advance writes: the stage, the stamp of a working stage, one timeline row, and the
      status of the request. */
  lemma AdvanceMoves(db: Db, l: LineId, to: Stage, actor: Actor, now: Time)
    requires db.Valid() && StageService.Advance(db, l, to, actor, now).1.Ok?
    ensures l in db.lines
    ensures var after := StageService.Advance(db, l, to, actor, now).0; var line := db.lines[l];
      && after.lines == db.lines[l := after.lines[l]]
      && after.lines[l] == line.(stage := to, stampedAt := after.lines[l].stampedAt)
      && after.lines[l].stampedAt == (if to == Requested || to == Cancelled then line.stampedAt else line.stampedAt[to := now])
      && after.events == db.events + [StageChange(line.requestId, l, line.stage, to)]
      && after == db.(lines := after.lines, events := after.events, requests := after.requests)
  {
    hide StagesOf, StatusOf, LegalTransitions;
  }

  /** Advancing one line through these stages, as far as it goes through. */
  function Walk(db: Db, l: LineId, steps: seq<Stage>, actor: Actor, now: Time): (out: (Db, bool))
    requires db.Valid()
    ensures out.0.Valid()
    decreases |steps|
  {
    if steps == [] then (db, true)
    else
      var (next, result) := StageService.Advance(db, l, steps[0], actor, now);
      if result.Err? then (next, false) else Walk(next, l, steps[1..], actor, now)
  }

  /** Each stage can follow the one before it. */
  predicate Walkable(from: Stage, steps: seq<Stage>)
    decreases |steps|
  {
    steps == [] || (CanMove(from, steps[0]) && Walkable(steps[0], steps[1..]))
  }

  /** An actor who may touch the request can walk its line down any such way, to its end. */
  lemma {:induction false} WalksToTheEnd(db: Db, l: LineId, steps: seq<Stage>, actor: Actor, now: Time)
    requires db.Valid() && l in db.lines && MayTouch(actor, db.requests[db.lines[l].requestId].opcoId)
    requires Walkable(db.lines[l].stage, steps)
    ensures var (after, walked) := Walk(db, l, steps, actor, now);
      walked && l in after.lines && after.lines[l].stage == (if steps == [] then db.lines[l].stage else steps[|steps| - 1])
    decreases |steps|
  {
    if steps != [] {
      hide StageService.Advance, CanMove, MayTouch;
      AdvancesExactlyWhen(db, l, steps[0], actor, now);
      AdvanceMoves(db, l, steps[0], actor, now);
      KeepsTheOpco(db, l, steps[0], actor, now);
      hide Db.Valid;
      WalksToTheEnd(StageService.Advance(db, l, steps[0], actor, now).0, l, steps[1..], actor, now);
    }
  }

  lemma KeepsTheOpco(db: Db, l: LineId, to: Stage, actor: Actor, now: Time)
    requires db.Valid() && StageService.Advance(db, l, to, actor, now).1.Ok?
    ensures var after := StageService.Advance(db, l, to, actor, now).0;
      && l in db.lines && l in after.lines && after.lines[l].requestId == db.lines[l].requestId
      && after.requests[after.lines[l].requestId].opcoId == db.requests[db.lines[l].requestId].opcoId
  {
    hide StagesOf, StatusOf, LegalTransitions, Stamped;
  }

  /** Both ways to READY can be walked from REQUESTED, and a line can be cancelled wherever it stands
      short of ASSIGNED and CANCELLED. */
  lemma BothWaysCanBeWalked(stage: Stage)
    ensures Walkable(Requested, [Ready]) && Walkable(Requested, [Quoting, OpcoApproved, AwaitingVendor, Ready])
    ensures Walkable(stage, [Cancelled]) <==> stage != Assigned && stage != Cancelled
  {
    assert [Ready][1..] == [] && [Cancelled][1..] == [];
    assert [Quoting, OpcoApproved, AwaitingVendor, Ready][1..] == [OpcoApproved, AwaitingVendor, Ready];
    assert [OpcoApproved, AwaitingVendor, Ready][1..] == [AwaitingVendor, Ready];
    assert [AwaitingVendor, Ready][1..] == [Ready];
  }

  // ── every path ──

  /** The path after one more timeline row. */
  function EnteredBy(path: seq<Stage>, e: Event, l: LineId): seq<Stage> {
    match e
    case StageChange(_, line, _, to) => if line == l then path + [to] else path
    case Assign(_, line, _) => if line == l then path + [Assigned] else path
    case _ => path
  }

  /** The stages a line's timeline enters, in order. */
  function Entered(events: seq<Event>, l: LineId): seq<Stage> {
    if events == [] then [] else EnteredBy(Entered(events[..|events| - 1], l), events[|events| - 1], l)
  }

  /** The two ways a line can go: straight to READY, or through quote, approval and vendor. */
  const DIRECT: seq<Stage> := [Ready, Assigned]
  const PROCURED: seq<Stage> := [Quoting, OpcoApproved, AwaitingVendor, Ready, Assigned]

  /** Part of one of the two ways, perhaps cut short by a cancellation before it is assigned. */
  predicate IsPath(path: seq<Stage>) {
    || path <= DIRECT
    || path <= PROCURED
    || (path != [] && path[|path| - 1] == Cancelled && Assigned !in path &&
        (path[..|path| - 1] <= DIRECT || path[..|path| - 1] <= PROCURED))
  }

  function Reached(path: seq<Stage>): Stage {
    if path == [] then Requested else path[|path| - 1]
  }

  lemma MoveContinuesThePath(path: seq<Stage>, to: Stage)
    requires IsPath(path) && (CanMove(Reached(path), to) || (Reached(path) == Ready && to == Assigned))
    ensures IsPath(path + [to])
  {
    assert (path + [to])[..|path|] == path;
    if path <= DIRECT {
      assert |path| == 0 || path == [Ready] || path == [Ready, Assigned];
    } else if path <= PROCURED {
      assert path == PROCURED[..|path|];
    }
  }

  /** The row starts where the line's path had brought it. */
  predicate Continues(path: seq<Stage>, e: Event, l: LineId) {
    && (e.StageChange? && e.lineId == l ==> e.fromStage == Reached(path))
    && (e.Assign? && e.lineId == l ==> Reached(path) == Ready)
  }

  /** Each of the line's rows starts where the one before it ended. */
  ghost predicate Contiguous(events: seq<Event>, l: LineId) {
    forall i :: 0 <= i < |events| ==> Continues(Entered(events[..i], l), events[i], l)
  }

  /** The stages that stamp the line: all but REQUESTED and CANCELLED. */
  function StampsOf(path: seq<Stage>): set<Stage> {
    set s | s in path && s != Requested && s != Cancelled
  }

  lemma RowContinuesThePath(path: seq<Stage>, e: Event, r: RequestId, l: LineId)
    requires IsPath(path) && Advance(Some(Position(Reached(path), StampsOf(path))), e, r, l).Some?
    ensures IsPath(EnteredBy(path, e, l)) && Continues(path, e, l)
    ensures Advance(Some(Position(Reached(path), StampsOf(path))), e, r, l) ==
      Some(Position(Reached(EnteredBy(path, e, l)), StampsOf(EnteredBy(path, e, l))))
  {
    if (e.StageChange? || e.Assign?) && e.lineId == l {
      var to := if e.StageChange? then e.toStage else Assigned;
      if e.StageChange? {
        CanMoveMeans(e.fromStage, to);
      }
      MoveContinuesThePath(path, to);
      hide IsPath, LegalTransitions, CanMove;
      assert StampsOf(path + [to]) == StampsOf(path) + (if Stamped(to) then {to} else {});
    }
  }

  lemma {:induction false} ReplayedTimelineIsAPath(events: seq<Event>, r: RequestId, l: LineId)
    requires Replay(events, r, l).Some?
    ensures IsPath(Entered(events, l)) && Contiguous(events, l)
    ensures Replay(events, r, l) == Some(Position(Reached(Entered(events, l)), StampsOf(Entered(events, l))))
  {
    if events != [] {
      var init, e := events[..|events| - 1], events[|events| - 1];
      hide IsPath, Reached, StampsOf, EnteredBy, Continues;
      assert Advance(Replay(init, r, l), e, r, l).Some?;
      BrokenStaysBroken(e, r, l);
      hide Advance;
      ReplayedTimelineIsAPath(init, r, l);
      RowContinuesThePath(Entered(init, l), e, r, l);
      forall i | 0 <= i < |events| ensures Continues(Entered(events[..i], l), events[i], l) {
        if i < |init| {
          assert init[..i] == events[..i] && init[i] == events[i];
        }
      }
    } else {
      assert StampsOf([]) == {};
    }
  }

  /** A timeline that once broke never replays again. */
  lemma BrokenStaysBroken(e: Event, r: RequestId, l: LineId)
    ensures Advance(None, e, r, l) == None
  {
  }

  /** In every state that keeps the invariants a line's timeline is one of these paths, in one
      piece, and the line stands where it ends, with the stamps it earned. So a line that was
      ever quoted is READY only after approval and vendor; the other way to READY is straight
      from REQUESTED; and nothing follows ASSIGNED or CANCELLED. */
  lemma LinesFollowAPath(db: Db, l: LineId)
    requires Sound(db) && l in db.lines
    ensures var path := Entered(db.events, l);
      && IsPath(path) && Contiguous(db.events, l)
      && db.lines[l].stage == Reached(path)
      && db.lines[l].stampedAt.Keys == StampsOf(path)
  {
    ReplayedTimelineIsAPath(db.events, db.lines[l].requestId, l);
  }

  /** What being a path comes to. */
  lemma PathsAreThese(path: seq<Stage>)
    requires IsPath(path)
    ensures Quoting in path && (Ready in path || Assigned in path) ==> [Quoting, OpcoApproved, AwaitingVendor, Ready] <= path
    ensures Quoting !in path && (Ready in path || Assigned in path) ==> path[0] == Ready
    ensures forall i :: 0 <= i < |path| - 1 ==> path[i] != Assigned && path[i] != Cancelled
    ensures Assigned in path ==> path == [Ready, Assigned] || path == [Quoting, OpcoApproved, AwaitingVendor, Ready, Assigned]
  {
    if path <= DIRECT {
      assert path == DIRECT[..|path|];
    } else if path <= PROCURED {
      assert path == PROCURED[..|path|];
    } else {
      var cut := path[..|path| - 1];
      assert path == cut + [Cancelled];
      assert cut <= DIRECT ==> cut == DIRECT[..|cut|];
      assert cut <= PROCURED ==> cut == PROCURED[..|cut|];
    }
  }

  lemma WhereAPathEnds(path: seq<Stage>)
    requires IsPath(path)
    ensures forall i :: 0 <= i < |path| - 1 ==> path[i] != Assigned && path[i] != Cancelled
    ensures Ready in path || Assigned in path ==> [Ready] <= path || [Quoting, OpcoApproved, AwaitingVendor, Ready] <= path
    ensures Reached(path) == Ready ==> path == [Ready] || path == [Quoting, OpcoApproved, AwaitingVendor, Ready]
    ensures Reached(path) == Assigned ==> path == [Ready, Assigned] || path == [Quoting, OpcoApproved, AwaitingVendor, Ready, Assigned]
  {
    PathsAreThese(path);
    if path <= DIRECT {
      assert path == DIRECT[..|path|];
    } else if path <= PROCURED {
      assert path == PROCURED[..|path|];
    }
  }

  // ── the request's status ──

  lemma StatusOfMeans(all: set<Stage>)
    ensures var status := StatusOf(all);
      && (status == CancelledStatus <==> all == {Cancelled})
      && (status == Open <==> all == {} || (Requested in all && all <= {Requested, Cancelled}))
      && (status == Completed <==> Assigned in all && all <= {Assigned, Cancelled})
  {
    assert all <= {Assigned, Cancelled} && Assigned !in all ==> all == {} || all == {Cancelled};
  }

  /** What each status says of the lines: OPEN, no line has moved; CANCELLED, every line is
      cancelled; COMPLETED, some line is assigned and the rest are too or are cancelled. */
  lemma StatusMeans(stages: seq<Stage>)
    ensures var status := AggregateRequestStatus(stages);
      && (status == CancelledStatus <==> stages != [] && OnlyThese(stages, Cancelled, Cancelled))
      && (status == Open <==> stages == [] || (Requested in stages && OnlyThese(stages, Requested, Cancelled)))
      && (status == Completed <==> Assigned in stages && OnlyThese(stages, Assigned, Cancelled))
  {
    AggregateIgnoresOrder(stages);
    var all := set s | s in stages;
    StatusOfMeans(all);
    hide AggregateRequestStatus, StatusOf;
    assert stages != [] ==> stages[0] in all;
    assert all == {} <==> stages == [];
    forall a, b ensures OnlyThese(stages, a, b) <==> all <= {a, b} {
      OnlyTheseMeans(stages, a, b);
    }
    assert stages != [] && all <= {Cancelled} ==> all == {Cancelled};
    assert {Cancelled, Cancelled} == {Cancelled};
  }

  predicate OnlyThese(stages: seq<Stage>, a: Stage, b: Stage) {
    forall i :: 0 <= i < |stages| ==> stages[i] == a || stages[i] == b
  }

  lemma OnlyTheseMeans(stages: seq<Stage>, a: Stage, b: Stage)
    ensures OnlyThese(stages, a, b) <==> (set s | s in stages) <= {a, b}
  {
    if OnlyThese(stages, a, b) {
      forall s | s in stages ensures s in {a, b} {
        var i :| 0 <= i < |stages| && stages[i] == s;
      }
    }
    if (set s | s in stages) <= {a, b} {
      forall i | 0 <= i < |stages| ensures stages[i] == a || stages[i] == b {
        var all := set s | s in stages;
        assert stages[i] in all;
      }
    }
  }
}
