/**
  Assigns that overlap: each reads its budget when it begins and writes its seat when
  it ends, and other calls run in between.
 */
module BudgetRace {
  import opened Wrappers
  import opened Stages
  import opened Database
  import opened Outside
  import opened Assign
  import AssignReport
  import History
  import C = CheckThenAct

  /** An assign between its gates and its transaction: what it read, and the cell it will charge. */
  datatype Flight = Flight(call: AssignCall, context: Context, cell: Cell)

  datatype Race = Race(world: World, flights: seq<Flight>, overridden: multiset<Cell>)

  datatype Move =
    | Begin(call: AssignCall, oracle: Oracle)
    | Finish(flight: nat)
    | Fail(flight: nat)
    | Elsewhere(after: World)

  /** This flight will add a seat to `cell` when it lands. */
  predicate WillCharge(f: Flight, cell: Cell) {
    f.cell == cell && f.context.holding != Held
  }

  predicate Overrides(f: Flight) {
    f.context.OverBudget() && f.context.overriding
  }

  /** The override this flight lands, booked to its cell. */
  function OverrideOf(f: Flight): (booked: multiset<Cell>)
    ensures forall cell :: booked[cell] == (if Overrides(f) && WillCharge(f, cell) then 1 else 0)
  {
    if Overrides(f) && WillCharge(f, f.cell) then multiset{f.cell} else multiset{}
  }

  predicate Landable(w: World, f: Flight) {
    && f.call.lineId in w.db.lines
    && w.db.lines[f.call.lineId].requestId < |w.db.requests|
    && f.cell == Cell(w.db.requests[w.db.lines[f.call.lineId].requestId].opcoId, w.db.lines[f.call.lineId].skuCatalogId)
  }

  ghost predicate Valid(race: Race) {
    && race.world.db.Valid()
    && forall i :: 0 <= i < |race.flights| ==> Landable(race.world, race.flights[i])
  }

  /** What another call may do meanwhile: no seat and no allocation moves, and the lines in
      flight stay under their request and SKU. */
  ghost predicate Undisturbed(race: Race, after: World) {
    && after.db.Valid()
    && after.db.ledger == race.world.db.ledger
    && forall i :: 0 <= i < |race.flights| ==> Landable(after, race.flights[i])
  }

  /** The licence call of a flight, for the user and SKU it read. */
  function Granted(w: World, f: Flight): World {
    var c := f.context;
    if c.holding == Held then w else w.(
      holdings := w.holdings + {(c.request.targetUpn, c.sku.skuId)},
      grants := w.grants + [Grant(c.line.requestId, c.request.targetUpn, c.sku.skuId)])
  }

  /** The rest of an assign: the licence, then the transaction and the write-back on the tables of now. */
  function Landed(w: World, f: Flight): (after: World)
    requires w.db.Valid() && f.call.lineId in w.db.lines
    ensures after.db.Valid()
  {
    Granted(w, f).(db := Settle(w.db, f.call.lineId, f.context.holding, f.context.oracle).0)
  }

  function Without(flights: seq<Flight>, i: nat): seq<Flight>
    requires i < |flights|
  {
    flights[..i] + flights[i + 1..]
  }

  function Finished(race: Race, i: nat): (after: Race)
    requires race.world.db.Valid() && i < |race.flights| && race.flights[i].call.lineId in race.world.db.lines
  {
    var f := race.flights[i];
    Race(Landed(race.world, f), Without(race.flights, i), race.overridden + OverrideOf(f))
  }

  ghost function Next(race: Race, m: Move): (after: Race)
    requires Valid(race)
  {
    var w := race.world;
    match m
    case Begin(call, o) =>
      if Precheck(w.db, call).None? && FirstStop(ContextOf(w, call, o), 0) == |GATE_KEYS| then
        race.(flights := race.flights + [Flight(call, ContextOf(w, call, o), w.db.CellOf(call.lineId))])
      else race.(world := Outcome(w, call, o).0)
    case Finish(i) => if i < |race.flights| then assert Landable(w, race.flights[i]); Finished(race, i) else race
    case Fail(i) => if i < |race.flights| then race.(flights := Without(race.flights, i)) else race
    case Elsewhere(after) => if Undisturbed(race, after) then race.(world := after) else race
  }

  /** The flights that passed the budget check and will charge `cell`. */
  function Waiting(flights: seq<Flight>, cell: Cell): nat {
    if flights == [] then 0
    else Waiting(flights[1..], cell) + (if WillCharge(flights[0], cell) && !Overrides(flights[0]) then 1 else 0)
  }

  lemma {:induction false} WaitingConcat(a: seq<Flight>, b: seq<Flight>, cell: Cell)
    ensures Waiting(a + b, cell) == Waiting(a, cell) + Waiting(b, cell)
  {
    if a == [] {
      assert a + b == b;
    } else {
      assert (a + b)[1..] == a[1..] + b;
      WaitingConcat(a[1..], b, cell);
    }
  }

  lemma WaitingWithout(flights: seq<Flight>, i: nat, cell: Cell)
    requires i < |flights|
    ensures Waiting(flights, cell) ==
      Waiting(Without(flights, i), cell) + (if WillCharge(flights[i], cell) && !Overrides(flights[i]) then 1 else 0)
  {
    assert flights == flights[..i] + ([flights[i]] + flights[i + 1..]);
    WaitingConcat(flights[..i], [flights[i]] + flights[i + 1..], cell);
    WaitingConcat([flights[i]], flights[i + 1..], cell);
    WaitingConcat(flights[..i], flights[i + 1..], cell);
  }

  // ── the race keeps its flights landable ──

  lemma OtherFlightsLand(w: World, f: Flight, other: Flight)
    requires w.db.Valid() && Landable(w, f) && Landable(w, other)
    ensures Landable(Landed(w, f), other)
  {
    var l := f.call.lineId;
    CommitMovesOneRow(w.db, l, f.context.holding, f.context.oracle.now);
    AssignReport.SettleAddsOnlyRecords(w.db, l, f.context.holding, f.context.oracle);
    hide Commit, Settle, Db.Valid;
  }

  lemma CommitMovesOneRow(db: Db, l: LineId, holding: HoldingStatus, now: Time)
    requires db.Valid() && l in db.lines
    ensures var after := Commit(db, l, holding, now);
      && after.lines.Keys == db.lines.Keys
      && (forall k :: k in db.lines ==> after.lines[k].requestId == db.lines[k].requestId && after.lines[k].skuCatalogId == db.lines[k].skuCatalogId)
      && |after.requests| == |db.requests|
      && (forall k :: 0 <= k < |db.requests| ==> after.requests[k].opcoId == db.requests[k].opcoId)
  {
    AssignReport.CommitWrites(db, l, holding, now);
    hide Db.Valid;
    hide Commit;
  }

  lemma HeldFlightsLand(w: World, flight: Flight, l: LineId, after: World)
    requires l in w.db.lines && Landable(w, flight)
    requires after == w.(db := after.db) && AssignReport.OnlyHeldOrQueued(w.db, after.db, l)
    ensures Landable(after, flight)
  {
  }

  lemma RefusedIsNotDone(w: World, call: AssignCall, o: Oracle)
    requires w.db.Valid()
    requires Precheck(w.db, call).Some? || FirstStop(ContextOf(w, call, o), 0) < |GATE_KEYS|
    ensures !Outcome(w, call, o).1.Done?
  {
    hide Perform, HoldTicket, GateSteps, VerdictOf;
  }

  lemma RefusalIsValid(race: Race, call: AssignCall, o: Oracle)
    requires Valid(race) && !Outcome(race.world, call, o).1.Done?
    ensures Valid(race.(world := Outcome(race.world, call, o).0))
  {
    var w := race.world;
    AssignReport.RefusalLeavesTheDomainAlone(w, call, o);
    hide Outcome, Db.Valid;
    var after := Outcome(w, call, o).0;
    if after != w {
      forall i | 0 <= i < |race.flights| ensures Landable(after, race.flights[i]) {
        HeldFlightsLand(w, race.flights[i], call.lineId, after);
      }
    }
  }

  lemma LandingIsValid(race: Race, i: nat)
    requires Valid(race) && i < |race.flights|
    ensures Valid(Next(race, Finish(i)))
  {
    hide Landed, Landable, Db.Valid;
    var f := race.flights[i];
    FlightIsListed(race.world, race.flights, i);
    forall k | 0 <= k < |race.flights| ensures Landable(Landed(race.world, f), race.flights[k]) {
      OtherFlightsLand(race.world, f, race.flights[k]);
    }
  }

  lemma FlightIsListed(w: World, flights: seq<Flight>, i: nat)
    requires i < |flights| && Landable(w, flights[i])
    ensures flights[i].call.lineId in w.db.lines
  {
  }

  lemma NextIsValid(race: Race, m: Move)
    requires Valid(race)
    ensures Valid(Next(race, m))
  {
    hide Outcome, Landed, FirstStop, ContextOf;
    var w := race.world;
    match m
    case Begin(call, o) =>
      if !(Precheck(w.db, call).None? && FirstStop(ContextOf(w, call, o), 0) == |GATE_KEYS|) {
        RefusedIsNotDone(w, call, o);
        RefusalIsValid(race, call, o);
      }
    case Finish(i) =>
      if i < |race.flights| {
        LandingIsValid(race, i);
      }
    case Fail(i) =>
    case Elsewhere(after) =>
  }

  // ── each move is a move of the counter ──

  /** One cell's race as a counter: its seats, the flights that passed its budget check, the overrides landed. */
  function Abstract(race: Race, cell: Cell): C.Counter {
    C.Counter(race.world.db.AssignedQuantity(cell), Waiting(race.flights, cell), race.overridden[cell])
  }

  /** What a move of the race is to the counter of `cell`. */
  ghost function Shadow(race: Race, m: Move, cell: Cell): C.Move
    requires Valid(race)
  {
    var w := race.world;
    match m
    case Begin(call, o) =>
      if Precheck(w.db, call).None? && FirstStop(ContextOf(w, call, o), 0) == |GATE_KEYS| then
        var f := Flight(call, ContextOf(w, call, o), w.db.CellOf(call.lineId));
        if WillCharge(f, cell) && !Overrides(f) then C.Admit else C.Idle
      else C.Idle
    case Finish(i) => if i < |race.flights| then FinishShadow(race.flights[i], cell) else C.Idle
    case Fail(i) => if i < |race.flights| && WillCharge(race.flights[i], cell) && !Overrides(race.flights[i]) then C.Withdraw else C.Idle
    case Elsewhere(_) => C.Idle
  }

  /** A flight that did not override read its cell below the allocation. */
  lemma AdmittedBelowBudget(w: World, call: AssignCall, o: Oracle)
    requires w.db.Valid() && Precheck(w.db, call).None? && FirstStop(ContextOf(w, call, o), 0) == |GATE_KEYS|
    ensures var c := ContextOf(w, call, o); var cell := w.db.CellOf(call.lineId);
      && c.assignedBefore == w.db.AssignedQuantity(cell) && c.allocatedSeats == w.db.AllocatedQuantity(cell)
      && (c.OverBudget() ==> c.overriding)
  {
    var c := ContextOf(w, call, o);
    assert StopsAt(c, |GATE_KEYS|);
    assert VerdictOf(GATE_KEYS[5], c).Pass?;
  }

  lemma LandingCharges(w: World, f: Flight, cell: Cell)
    requires w.db.Valid() && Landable(w, f)
    ensures Landed(w, f).db.AssignedQuantity(cell) == w.db.AssignedQuantity(cell) + (if WillCharge(f, cell) then 1 else 0)
    ensures Landed(w, f).db.AllocatedQuantity(cell) == w.db.AllocatedQuantity(cell)
  {
    var l := f.call.lineId;
    AssignReport.CommitMovesOneLineAndOneSeat(w.db, l, f.context.holding, f.context.oracle.now);
    AssignReport.SettleAddsOnlyRecords(w.db, l, f.context.holding, f.context.oracle);
    hide Commit, Settle, Db.Valid;
  }

  /** The counter of `cell` follows this move, and its limit stays put. */
  ghost predicate Follows(race: Race, m: Move, cell: Cell)
    requires Valid(race)
  {
    && Abstract(Next(race, m), cell) == C.Step(Abstract(race, cell), race.world.db.AllocatedQuantity(cell), Shadow(race, m, cell))
    && Next(race, m).world.db.AllocatedQuantity(cell) == race.world.db.AllocatedQuantity(cell)
  }

  lemma BeginFollows(race: Race, call: AssignCall, o: Oracle, cell: Cell)
    requires Valid(race)
    ensures Follows(race, Begin(call, o), cell)
  {
    hide Outcome, FirstStop, Db.Valid;
    var w := race.world;
    if Precheck(w.db, call).None? && FirstStop(ContextOf(w, call, o), 0) == |GATE_KEYS| {
      AdmittedBelowBudget(w, call, o);
      hide ContextOf;
      var f := Flight(call, ContextOf(w, call, o), w.db.CellOf(call.lineId));
      WaitingConcat(race.flights, [f], cell);
    } else {
      RefusedIsNotDone(w, call, o);
      AssignReport.RefusalLeavesTheDomainAlone(w, call, o);
    }
  }

  function FinishShadow(f: Flight, cell: Cell): C.Move {
    if WillCharge(f, cell) then if Overrides(f) then C.Force else C.Act else C.Idle
  }

  lemma LandingIsAStep(s: C.Counter, t: C.Counter, limit: int, charges: bool, overrides: bool)
    requires t.forced == s.forced + (if overrides && charges then 1 else 0)
    requires t.count == s.count + (if charges then 1 else 0)
    requires s.waiting == t.waiting + (if charges && !overrides then 1 else 0)
    ensures t == C.Step(s, limit, if charges then if overrides then C.Force else C.Act else C.Idle)
  {
  }

  lemma FinishedFollows(race: Race, i: nat, cell: Cell)
    requires race.world.db.Valid() && i < |race.flights| && Landable(race.world, race.flights[i])
    ensures Abstract(Finished(race, i), cell) ==
      C.Step(Abstract(race, cell), race.world.db.AllocatedQuantity(cell), FinishShadow(race.flights[i], cell))
    ensures Finished(race, i).world.db.AllocatedQuantity(cell) == race.world.db.AllocatedQuantity(cell)
  {
    LandingCharges(race.world, race.flights[i], cell);
    WaitingWithout(race.flights, i, cell);
    hide Landed, Landable, Waiting, Without, Db.Valid, Db.AssignedQuantity, Db.AllocatedQuantity, Overrides, WillCharge, OverrideOf, C.Step;
    var s, t, f := Abstract(race, cell), Abstract(Finished(race, i), cell), race.flights[i];
    assert t.forced == s.forced + (if Overrides(f) && WillCharge(f, cell) then 1 else 0);
    assert t.count == s.count + (if WillCharge(f, cell) then 1 else 0);
    assert s.waiting == t.waiting + (if WillCharge(f, cell) && !Overrides(f) then 1 else 0);
    hide Abstract, Finished;
    LandingIsAStep(s, t, race.world.db.AllocatedQuantity(cell), WillCharge(f, cell), Overrides(f));
  }

  lemma FinishFollows(race: Race, i: nat, cell: Cell)
    requires Valid(race)
    ensures Follows(race, Finish(i), cell)
  {
    if i < |race.flights| {
      FinishedFollows(race, i, cell);
      hide Finished, Abstract, FinishShadow, Db.Valid, Db.AllocatedQuantity, C.Step;
    }
  }

  lemma FailFollows(race: Race, i: nat, cell: Cell)
    requires Valid(race)
    ensures Follows(race, Fail(i), cell)
  {
    if i < |race.flights| {
      WaitingWithout(race.flights, i, cell);
    }
  }

  lemma NextFollowsTheCounter(race: Race, m: Move, cell: Cell)
    requires Valid(race)
    ensures Follows(race, m, cell)
  {
    hide Follows, Valid;
    match m
    case Begin(call, o) => BeginFollows(race, call, o, cell);
    case Finish(i) => FinishFollows(race, i, cell);
    case Fail(i) => FailFollows(race, i, cell);
    case Elsewhere(after) => ElsewhereFollows(race, after, cell);
  }

  lemma ElsewhereFollows(race: Race, after: World, cell: Cell)
    requires Valid(race)
    ensures Follows(race, Elsewhere(after), cell)
  {
    hide Waiting, Landable, Db.Valid;
  }

  // ── over schedules ──

  ghost function Run(race: Race, moves: seq<Move>): (after: Race)
    requires Valid(race)
    ensures Valid(after)
    decreases |moves|
  {
    if moves == [] then race else NextIsValid(race, moves[0]); Run(Next(race, moves[0]), moves[1..])
  }

  /** At most `k` assigns of this cell are between their read and their write, now and at
      every later moment. */
  ghost predicate Crowd(race: Race, moves: seq<Move>, cell: Cell, k: nat)
    requires Valid(race)
    decreases |moves|
  {
    Waiting(race.flights, cell) <= k &&
    (moves != [] ==> (NextIsValid(race, moves[0]); Crowd(Next(race, moves[0]), moves[1..], cell, k)))
  }

  /** The schedule as the counter of `cell` sees it. */
  ghost function Shadows(race: Race, moves: seq<Move>, cell: Cell): seq<C.Move>
    requires Valid(race)
    decreases |moves|
  {
    if moves == [] then []
    else NextIsValid(race, moves[0]); [Shadow(race, moves[0], cell)] + Shadows(Next(race, moves[0]), moves[1..], cell)
  }

  /** Refinement: a schedule of assigns is a run of the counter, and as crowded. */
  lemma {:induction false} RunFollowsTheCounter(race: Race, moves: seq<Move>, cell: Cell, k: nat)
    requires Valid(race)
    ensures var after := Run(race, moves); var limit := race.world.db.AllocatedQuantity(cell);
      && after.world.db.AllocatedQuantity(cell) == limit
      && Abstract(after, cell) == C.Run(Abstract(race, cell), limit, Shadows(race, moves, cell))
      && (Crowd(race, moves, cell, k) <==> C.Crowd(Abstract(race, cell), limit, Shadows(race, moves, cell), k))
    decreases |moves|
  {
    hide Next, Shadow, Waiting, C.Step;
    if moves != [] {
      var next := Next(race, moves[0]);
      var limit := race.world.db.AllocatedQuantity(cell);
      NextIsValid(race, moves[0]);
      NextFollowsTheCounter(race, moves[0], cell);
      RunFollowsTheCounter(next, moves[1..], cell, k);
      C.RunFromFront(Abstract(race, cell), limit, Shadow(race, moves[0], cell), Shadows(next, moves[1..], cell));
      C.CrowdFromFront(Abstract(race, cell), limit, Shadow(race, moves[0], cell), Shadows(next, moves[1..], cell), k);
    } else {
      C.NoMoves(Abstract(race, cell), race.world.db.AllocatedQuantity(cell), k);
    }
  }

  /** Under every schedule with at most `k` assigns of a cell in flight, its seats stay within
      its allocation, the overrides that landed, and `k - 1` more; with one at a time, within
      allocation and overrides exactly. */
  lemma SeatsStayWithinBudget(w: World, moves: seq<Move>, cell: Cell, k: nat)
    requires w.db.Valid() && 1 <= k && w.db.AssignedQuantity(cell) <= w.db.AllocatedQuantity(cell)
    requires Crowd(Race(w, [], multiset{}), moves, cell, k)
    ensures var after := Run(Race(w, [], multiset{}), moves);
      after.world.db.AssignedQuantity(cell) <= after.world.db.AllocatedQuantity(cell) + after.overridden[cell] + k - 1
  {
    var race := Race(w, [], multiset{});
    RunFollowsTheCounter(race, moves, cell, k);
    hide Run, Crowd, Shadows, Db.Valid;
    C.RunStaysBounded(Abstract(race, cell), w.db.AllocatedQuantity(cell), Shadows(race, moves, cell), k);
  }

  // ── and the bound is reached ──

  datatype Ready = Ready(call: AssignCall, oracle: Oracle)

  /** Started now, this assign passes every gate without an override and charges `cell`. */
  ghost predicate Admits(w: World, a: Ready, cell: Cell)
    requires w.db.Valid()
  {
    && Precheck(w.db, a.call).None? && FirstStop(ContextOf(w, a.call, a.oracle), 0) == |GATE_KEYS|
    && !ContextOf(w, a.call, a.oracle).OverBudget() && ContextOf(w, a.call, a.oracle).holding != Held
    && w.db.CellOf(a.call.lineId) == cell
  }

  function Begins(assigns: seq<Ready>): seq<Move> {
    seq(|assigns|, i requires 0 <= i < |assigns| => Begin(assigns[i].call, assigns[i].oracle))
  }

  function Landings(n: nat): seq<Move> {
    seq(n, _ => Finish(0))
  }

  /** All begin before any of them lands. */
  function Rush(assigns: seq<Ready>): seq<Move> {
    Begins(assigns) + Landings(|assigns|)
  }

  predicate AllCharge(flights: seq<Flight>, cell: Cell) {
    forall i :: 0 <= i < |flights| ==> WillCharge(flights[i], cell) && !Overrides(flights[i])
  }

  lemma BeginAdmits(race: Race, a: Ready, cell: Cell)
    requires Valid(race) && Admits(race.world, a, cell) && AllCharge(race.flights, cell)
    ensures var after := Next(race, Begin(a.call, a.oracle));
      && after.world == race.world && |after.flights| == |race.flights| + 1 && AllCharge(after.flights, cell)
      && Shadow(race, Begin(a.call, a.oracle), cell) == C.Admit
  {
    hide ContextOf, Db.Valid, FirstStop, Landable;
  }

  lemma {:induction false} AllBegin(race: Race, assigns: seq<Ready>, cell: Cell)
    requires Valid(race) && forall i :: 0 <= i < |assigns| ==> Admits(race.world, assigns[i], cell)
    requires AllCharge(race.flights, cell)
    ensures var after := Run(race, Begins(assigns));
      && after.world == race.world && |after.flights| == |race.flights| + |assigns|
      && AllCharge(after.flights, cell)
      && Shadows(race, Begins(assigns), cell) == C.Times(C.Admit, |assigns|)
    decreases |assigns|
  {
    if assigns != [] {
      var m := Begin(assigns[0].call, assigns[0].oracle);
      NextIsValid(race, m);
      BeginAdmits(race, assigns[0], cell);
      assert Begins(assigns)[1..] == Begins(assigns[1..]);
      hide Next, Shadow, Admits, AllCharge;
      AllBegin(Next(race, m), assigns[1..], cell);
      C.OneMoreTime(C.Admit, |assigns|);
      hide C.Times;
    }
  }

  lemma {:induction false} AllLand(race: Race, n: nat, cell: Cell)
    requires Valid(race) && n <= |race.flights| && AllCharge(race.flights, cell)
    ensures Shadows(race, Landings(n), cell) == C.Times(C.Act, n)
    decreases n
  {
    if n > 0 {
      NextIsValid(race, Finish(0));
      FirstOfLandings(n);
      FirstLands(race, cell);
      C.OneMoreTime(C.Act, n);
      hide Next, Shadow, AllCharge, Valid, C.Times, Landings;
      AllLand(Next(race, Finish(0)), n - 1, cell);
    }
  }

  lemma FirstOfLandings(n: nat)
    requires n > 0
    ensures Landings(n) != [] && Landings(n)[0] == Finish(0) && Landings(n)[1..] == Landings(n - 1)
  {
  }

  lemma FirstLands(race: Race, cell: Cell)
    requires Valid(race) && race.flights != [] && AllCharge(race.flights, cell)
    ensures var after := Next(race, Finish(0));
      |after.flights| == |race.flights| - 1 && AllCharge(after.flights, cell) && Shadow(race, Finish(0), cell) == C.Act
  {
    hide Landed, Db.Valid, WillCharge, Overrides, OverrideOf, Landable;
    assert Without(race.flights, 0) == race.flights[1..];
  }

  lemma {:induction false} ShadowsConcat(race: Race, first: seq<Move>, second: seq<Move>, cell: Cell)
    requires Valid(race)
    ensures Shadows(race, first + second, cell) == Shadows(race, first, cell) + Shadows(Run(race, first), second, cell)
    decreases |first|
  {
    hide Next, Shadow;
    if first == [] {
      assert first + second == second;
    } else {
      NextIsValid(race, first[0]);
      assert (first + second)[1..] == first[1..] + second;
      ShadowsConcat(Next(race, first[0]), first[1..], second, cell);
    }
  }

  /** Any `k` assigns that would each be let through on their own, with one seat left: begun
      together they end exactly `k - 1` seats past the allocation, and no budget gate refused. */
  lemma RushOverrunsTheBudget(w: World, assigns: seq<Ready>, cell: Cell)
    requires w.db.Valid() && assigns != [] && w.db.AssignedQuantity(cell) == w.db.AllocatedQuantity(cell) - 1
    requires forall i :: 0 <= i < |assigns| ==> Admits(w, assigns[i], cell)
    ensures var race := Race(w, [], multiset{}); var k := |assigns|; var after := Run(race, Rush(assigns));
      && Crowd(race, Rush(assigns), cell, k)
      && after.overridden[cell] == 0
      && after.world.db.AssignedQuantity(cell) == after.world.db.AllocatedQuantity(cell) + k - 1
  {
    var race := Race(w, [], multiset{});
    var k := |assigns|;
    var limit := w.db.AllocatedQuantity(cell);
    AllBegin(race, assigns, cell);
    AllLand(Run(race, Begins(assigns)), k, cell);
    ShadowsConcat(race, Begins(assigns), Landings(k), cell);
    RunFollowsTheCounter(race, Rush(assigns), cell, k);
    hide Run, Crowd, Shadows, Db.Valid, Admits, Begins, C.Run, C.Crowd;
    assert Abstract(race, cell) == C.Counter(limit - 1, 0, 0);
    C.TheBoundIsReached(limit, k);
  }
}
