/** What an approval or a rejection decides, and the lines it creates, said on the rows. */
module ApprovalLaws {
  import opened Wrappers
  import opened Stages
  import opened Database
  import opened Outside
  import opened AgentRuns
  import opened AgentApproval
  import opened Terms
  import opened RequestLaws
  import Assign
  import IntakeService
  import R = RequestService

  /** The proposal waits for a decision, its run waits for it too, and it can be matched to its pause. */
  predicate Decidable(a: Agent, p: nat) {
    && p < |a.proposals| && a.proposals[p].status == Pending
    && a.proposals[p].runId < |a.runs| && a.runs[a.proposals[p].runId].status == AwaitingApproval
    && a.proposals[p].interruptionRef != ""
  }

  /** The item names a SKU that can be ordered and asks for at least one. */
  predicate ItemStands(item: Item, catalogue: Catalogue) {
    && item.skuId.Some? && item.quantity.Some? && item.quantity.value > 0
    && CanOrder(catalogue, item.skuId.value)
  }

  /** The list can be created: it is for the run's own request, it is not empty, and every item stands. */
  predicate Creatable(db: Db, a: Agent, p: ProposalId)
    requires a.Valid() && p < |a.proposals|
  {
    var payload := a.proposals[p].payload;
    var requestId := a.runs[a.proposals[p].runId].requestId;
    && requestId.Some? && payload.requestId == requestId
    && payload.items.Some? && payload.items.value != []
    && forall i :: 0 <= i < |payload.items.value| ==> ItemStands(payload.items.value[i], db.catalogue)
  }

  lemma DecidableMeans(a: Agent, p: nat)
    ensures Undecidable(a, p) ==
      if Decidable(a, p) then None else if p >= |a.proposals| then Some(NotFound) else Some(Conflict)
  {
  }

  lemma CreatableMeans(db: Db, a: Agent, p: ProposalId)
    requires db.Valid() && a.Valid() && p < |a.proposals|
    ensures PayloadRefusal(db, a, p) ==
      if Creatable(db, a, p) then None
      else if a.runs[a.proposals[p].runId].requestId.None? then Some(Conflict)
      else Some(BadRequest)
  {
    var items := a.proposals[p].payload.items;
    if items.Some? {
      forall i | 0 <= i < |items.value| && items.value[i].skuId.Some?
        ensures IntakeService.Orderable(db.catalogue, items.value[i].skuId.value) <==> CanOrder(db.catalogue, items.value[i].skuId.value)
      {
        OrderableMeans(db.catalogue, items.value[i].skuId.value);
      }
    }
    hide CanOrder, IntakeService.Orderable, Db.Valid;
  }

  /** Before its first write an approval is refused, and changes nothing, if and only if the agent
      is switched off, the proposal cannot be decided, or a list cannot be created. */
  lemma RefusedBeforeTheFirstWrite(s: Site, p: nat, approver: Actor, o: ApprovalOracle)
    requires s.Valid()
    requires s.agent.principal == Some(false) || !Decidable(s.agent, p) ||
      (s.agent.proposals[p].kind == LineItems && !Creatable(s.world.db, s.agent, p)) ||
      (s.agent.proposals[p].kind == AssignOne && s.agent.proposals[p].payload.lineItemId == None)
    ensures AgentApproval.Approve(s, p, approver, o) == (s, Err(
      if s.agent.principal == Some(false) then Conflict
      else if !Decidable(s.agent, p) then if p >= |s.agent.proposals| then NotFound else Conflict
      else if s.agent.proposals[p].kind == LineItems && s.agent.runs[s.agent.proposals[p].runId].requestId == None then Conflict
      else BadRequest))
  {
    DecidableMeans(s.agent, p);
    if p < |s.agent.proposals| {
      CreatableMeans(s.world.db, s.agent, p);
    }
    hide Creatable, PayloadRefusal, Undecidable, CreateLines, LineDtos, ResumeRun, Db.Valid, Assign.Outcome;
  }

  // ── creating the lines ──

  /** The row of one authored line. */
  predicate RowAsks(lines: map<LineId, Line>, l: LineId, r: RequestId, dto: R.LineDto) {
    && l in lines
    && var row := lines[l];
    && row.requestId == r && row.skuCatalogId == dto.skuCatalogId
    && row.quantity == (if dto.quantity.Some? then dto.quantity.value else 1)
    && row.procurementRequired == dto.procurementRequired
    && row.stage == Requested && row.stampedAt == map[] && row.ticketHeldAt == None
    && row.serviceNowSysId == None && row.serviceNowNumber == None
  }

  /** `n` rows have been added to request `r`, and at most its status has moved. */
  ghost predicate LinesAdded(db: Db, after: Db, r: RequestId, n: nat) {
    && after == db.(lines := after.lines, nextLine := db.nextLine + n, events := after.events, requests := after.requests)
    && after.events == db.events + seq(n, _ => Note(r))
    && |after.requests| == |db.requests|
    && (forall q :: 0 <= q < |db.requests| ==> after.requests[q] == db.requests[q].(status := after.requests[q].status))
    && (forall l :: l in after.lines <==> l in db.lines || db.nextLine <= l < db.nextLine + n)
    && (forall l :: l in db.lines ==> after.lines[l] == db.lines[l])
  }

  predicate RowsAsk(db: Db, after: Db, r: RequestId, dtos: seq<R.LineDto>, n: nat)
    requires n <= |dtos|
  {
    forall i :: 0 <= i < n ==> RowAsks(after.lines, db.nextLine + i, r, dtos[i])
  }

  /** How many of `n` lines are created: none where lines cannot be authored, else as many as the
      database takes. */
  function Created(db: Db, r: nat, n: nat, approver: Actor, failsAt: nat): nat {
    if !CanAdd(db, r, approver) then 0 else if failsAt < n then failsAt else n
  }

  lemma {:induction false} CreatesInOrder(db: Db, r: nat, dtos: seq<R.LineDto>, n: nat, approver: Actor, failsAt: nat)
    requires db.Valid() && n <= |dtos|
    requires forall i :: 0 <= i < |dtos| ==> dtos[i].skuCatalogId in db.catalogue.skus
    ensures var (after, created, error) := CreateLines(db, r, dtos, n, approver, failsAt); var made := Created(db, r, n, approver, failsAt);
      && LinesAdded(db, after, r, made) && RowsAsk(db, after, r, dtos, made)
      && created == seq(made, i => db.nextLine + i)
      && (error == None <==> made == n)
      && (made == 0 ==> after == db)
    decreases n
  {
    hide Db.Valid, R.AddLine, CanAdd, LinesAdded, RowsAsk;
    if n == 0 {
      NothingAdded(db, r, dtos);
    } else {
      CreatesInOrder(db, r, dtos, n - 1, approver, failsAt);
      var (before, created, error) := CreateLines(db, r, dtos, n - 1, approver, failsAt);
      if error == None && n - 1 != failsAt {
        AddsExactlyWhen(before, r, dtos[n - 1], approver);
        StillAuthored(db, before, r, dtos, n - 1, approver);
        SameCatalogue(db, before, r, n - 1);
        if CanAdd(db, r, approver) {
          AddedLine(before, r, dtos[n - 1], approver);
          OneMoreAdded(db, before, R.AddLine(before, r, dtos[n - 1], approver).0, r, dtos, n);
        } else {
          NothingAdded(db, r, dtos);
        }
      }
    }
  }

  lemma NothingAdded(db: Db, r: RequestId, dtos: seq<R.LineDto>)
    ensures LinesAdded(db, db, r, 0) && RowsAsk(db, db, r, dtos, 0)
  {
  }

  lemma SameCatalogue(db: Db, after: Db, r: RequestId, n: nat)
    requires LinesAdded(db, after, r, n)
    ensures after.catalogue == db.catalogue && after.nextLine == db.nextLine + n
  {
  }

  /** Lines can be authored after the ones just added exactly when they could before. */
  lemma StillAuthored(db: Db, after: Db, r: nat, dtos: seq<R.LineDto>, n: nat, approver: Actor)
    requires n <= |dtos| && LinesAdded(db, after, r, n) && RowsAsk(db, after, r, dtos, n)
    requires n == 0 ==> after == db
    requires n > 0 ==> CanAdd(db, r, approver)
    ensures CanAdd(after, r, approver) <==> CanAdd(db, r, approver)
  {
    if n > 0 {
      assert RowAsks(after.lines, db.nextLine + 0, r, dtos[0]);
    }
  }

  lemma OneMoreAdded(db: Db, before: Db, after: Db, r: RequestId, dtos: seq<R.LineDto>, n: nat)
    requires db.Valid() && 0 < n <= |dtos| && LinesAdded(db, before, r, n - 1) && RowsAsk(db, before, r, dtos, n - 1)
    requires OneMoreLine(before, after, r,
      Line(r, dtos[n - 1].skuCatalogId, if dtos[n - 1].quantity.Some? then dtos[n - 1].quantity.value else 1,
           dtos[n - 1].procurementRequired, Requested, map[], None, None, None))
    ensures LinesAdded(db, after, r, n) && RowsAsk(db, after, r, dtos, n)
  {
    OneMoreNote(r, n);
    assert db.nextLine + (n - 1) == before.nextLine;
    OneMoreRow(db, before, after, r, dtos, n);
    hide RowsAsk, RowAsks, Db.Valid;
  }

  lemma OneMoreRow(db: Db, before: Db, after: Db, r: RequestId, dtos: seq<R.LineDto>, n: nat)
    requires 0 < n <= |dtos| && RowsAsk(db, before, r, dtos, n - 1) && before.nextLine == db.nextLine + (n - 1)
    requires RowAsks(after.lines, before.nextLine, r, dtos[n - 1])
    requires forall l :: l in before.lines && l != before.nextLine ==> l in after.lines && after.lines[l] == before.lines[l]
    ensures RowsAsk(db, after, r, dtos, n)
  {
    forall i | 0 <= i < n ensures RowAsks(after.lines, db.nextLine + i, r, dtos[i]) {
      if i < n - 1 {
        assert RowAsks(before.lines, db.nextLine + i, r, dtos[i]);
      }
    }
  }

  lemma OneMoreNote(r: RequestId, n: nat)
    requires n > 0
    ensures seq(n, _ => Note(r)) == seq(n - 1, _ => Note(r)) + [Note(r)]
  {
  }

  // ── the decision ──

  /** The proposal's row once a person has decided it. */
  predicate DecidedAs(a: Agent, after: Agent, p: ProposalId, status: ProposalStatus, approver: Actor, now: Time, created: seq<LineId>)
    requires p < |a.proposals|
  {
    && p < |after.proposals|
    && after.proposals[p] == a.proposals[p].(status := status, approvedById := Some(approver.id), decidedAt := Some(now), createdLineItemIds := created)
  }

  /** Resuming a run leaves every decided proposal as it is. */
  lemma ResumingSparesDecided(a: Agent, r: nat, turn: Turn, now: Time, p: ProposalId)
    requires p < |a.proposals| && a.proposals[p].status != Pending
    ensures var after := ResumeRun(a, r, turn, now).0; p < |after.proposals| && after.proposals[p] == a.proposals[p]
  {
    hide Recorded, Readable;
  }

  /** A line creation asks for a proposed item: its SKU, and as many of it. */
  predicate AsksFor(dto: R.LineDto, item: Item, catalogue: Catalogue) {
    && item.skuId.Some? && item.quantity.Some? && item.quantity.value > 0
    && dto.skuCatalogId in catalogue.skus && catalogue.skus[dto.skuCatalogId].skuId == item.skuId.value
    && dto.quantity == item.quantity && !dto.procurementRequired
  }

  /** The dtos of a creatable list ask for its items. */
  lemma DtosAskForTheItems(db: Db, a: Agent, p: ProposalId)
    requires db.Valid() && a.Valid() && p < |a.proposals| && Creatable(db, a, p)
    ensures PayloadRefusal(db, a, p).None?
    ensures var items := a.proposals[p].payload.items.value; var dtos := LineDtos(db, a, p);
      && |dtos| == |items|
      && forall i :: 0 <= i < |items| ==> AsksFor(dtos[i], items[i], db.catalogue)
  {
    CreatableMeans(db, a, p);
    var items := a.proposals[p].payload.items.value;
    forall i | 0 <= i < |items|
      ensures items[i].quantity.value > 0 && items[i].skuId.value in db.catalogue.skuByGuid
      ensures db.catalogue.skuByGuid[items[i].skuId.value] in db.catalogue.skus
      ensures db.catalogue.skus[db.catalogue.skuByGuid[items[i].skuId.value]].skuId == items[i].skuId.value
    {
      assert ItemStands(items[i], db.catalogue);
      OrderableMeans(db.catalogue, items[i].skuId.value);
    }
    hide PayloadRefusal, Creatable, ItemStands, CanOrder;
  }

  /** The row of the line created for one proposed item. */
  predicate RowAnswers(db: Db, lines: map<LineId, Line>, l: LineId, r: RequestId, item: Item) {
    && l in lines
    && var row := lines[l];
    && row.requestId == r && row.stage == Requested
    && item.quantity.Some? && row.quantity == item.quantity.value
    && row.skuCatalogId in db.catalogue.skus && item.skuId == Some(db.catalogue.skus[row.skuCatalogId].skuId)
    && !row.procurementRequired && row.stampedAt == map[] && row.ticketHeldAt == None
    && row.serviceNowSysId == None && row.serviceNowNumber == None
  }

  /** Approving a creatable list creates its items one after the other on the run's own request, each
      with its quantity and its SKU. All of them: the proposal is executed, reports them, and the
      run is resumed. Short of that: it is failed, the call throws, and the run waits as it did. */
  lemma ApprovedItemsBecomeLines(s: Site, p: nat, approver: Actor, o: ApprovalOracle)
    requires s.Valid() && s.agent.principal != Some(false) && Decidable(s.agent, p)
    requires s.agent.proposals[p].kind == LineItems && Creatable(s.world.db, s.agent, p)
    ensures var (after, result) := AgentApproval.Approve(s, p, approver, o);
      var items := s.agent.proposals[p].payload.items.value; var r := s.agent.proposals[p].payload.requestId.value;
      var before := s.world.db; var db := after.world.db; var made := Created(before, r, |items|, approver, o.failsAt);
      && after.world == s.world.(db := db)
      && LinesAdded(before, db, r, made)
      && (forall i :: 0 <= i < made ==> RowAnswers(before, db.lines, before.nextLine + i, r, items[i]))
      && if made == |items| then
           && DecidedAs(s.agent, after.agent, p, Executed, approver, o.now, seq(|items|, i => before.nextLine + i))
         else
           && result.Err? && after.agent.runs == s.agent.runs
           && DecidedAs(s.agent, after.agent, p, ProposalFailed, approver, o.now, [])
  {
    CreatesTheItems(s.world.db, s.agent, p, approver, o.failsAt);
    ListApprovalDecides(s, p, approver, o);
    hide AgentApproval.Approve, LineDtos, PayloadRefusal, Created, CreateLines, DecidedAs, LinesAdded, RowAnswers, Db.Valid, ItemStands;
  }

  lemma CreatesTheItems(before: Db, a: Agent, p: ProposalId, approver: Actor, failsAt: nat)
    requires before.Valid() && a.Valid() && p < |a.proposals| && Creatable(before, a, p)
    ensures PayloadRefusal(before, a, p).None?
    ensures var items := a.proposals[p].payload.items.value; var r := a.proposals[p].payload.requestId.value;
      var made := Created(before, r, |items|, approver, failsAt); var dtos := LineDtos(before, a, p);
      var (db, created, error) := CreateLines(before, r, dtos, |dtos|, approver, failsAt);
      && LinesAdded(before, db, r, made)
      && (forall i :: 0 <= i < made ==> RowAnswers(before, db.lines, before.nextLine + i, r, items[i]))
      && created == seq(made, i => before.nextLine + i)
      && (error == None <==> made == |items|)
  {
    DtosAskForTheItems(before, a, p);
    var dtos := LineDtos(before, a, p);
    var r := a.proposals[p].payload.requestId.value;
    CreatesInOrder(before, r, dtos, |dtos|, approver, failsAt);
    RowsAnswer(before, CreateLines(before, r, dtos, |dtos|, approver, failsAt).0, r, dtos, a.proposals[p].payload.items.value,
               Created(before, r, |dtos|, approver, failsAt));
    hide LineDtos, PayloadRefusal, CreateLines, LinesAdded, RowsAsk, CanAdd, RowAnswers, Db.Valid, ItemStands;
  }

  lemma ListApprovalDecides(s: Site, p: nat, approver: Actor, o: ApprovalOracle)
    requires s.Valid() && s.agent.principal != Some(false) && Decidable(s.agent, p)
    requires s.agent.proposals[p].kind == LineItems && Creatable(s.world.db, s.agent, p) && PayloadRefusal(s.world.db, s.agent, p).None?
    ensures var (after, result) := AgentApproval.Approve(s, p, approver, o);
      var dtos := LineDtos(s.world.db, s.agent, p);
      var (db, created, error) := CreateLines(s.world.db, s.agent.proposals[p].payload.requestId.value, dtos, |dtos|, approver, o.failsAt);
      && after.world == s.world.(db := db)
      && if error == None then DecidedAs(s.agent, after.agent, p, Executed, approver, o.now, created)
         else
           && result.Err? && after.agent.runs == s.agent.runs
           && DecidedAs(s.agent, after.agent, p, ProposalFailed, approver, o.now, [])
  {
    DecidableMeans(s.agent, p);
    var dtos := LineDtos(s.world.db, s.agent, p);
    var created := CreateLines(s.world.db, s.agent.proposals[p].payload.requestId.value, dtos, |dtos|, approver, o.failsAt).1;
    ResumingSparesDecided(Decided(s.agent, p, Executed, approver, o.now, created), s.agent.proposals[p].runId, o.turn, o.now, p);
    hide LineDtos, PayloadRefusal, CreateLines, ResumeRun, Undecidable, Db.Valid, ItemStands;
  }

  lemma RowsAnswer(before: Db, db: Db, r: RequestId, dtos: seq<R.LineDto>, items: seq<Item>, n: nat)
    requires n <= |dtos| == |items| && RowsAsk(before, db, r, dtos, n)
    requires forall i :: 0 <= i < |items| ==> AsksFor(dtos[i], items[i], before.catalogue)
    ensures forall i :: 0 <= i < n ==> RowAnswers(before, db.lines, before.nextLine + i, r, items[i])
  {
    forall i | 0 <= i < n ensures RowAnswers(before, db.lines, before.nextLine + i, r, items[i]) {
      assert RowAsks(db.lines, before.nextLine + i, r, dtos[i]);
    }
  }

  /** Approving an assign makes the ordinary assign, as the approver, without an override. It is
      executed when that went through, failed when a gate refused, and undecided when it threw. */
  lemma ApprovedAssignIsAnAssign(s: Site, p: nat, approver: Actor, o: ApprovalOracle)
    requires s.Valid() && s.agent.principal != Some(false) && Decidable(s.agent, p)
    requires s.agent.proposals[p].kind == AssignOne && s.agent.proposals[p].payload.lineItemId.Some?
    ensures var (after, result) := AgentApproval.Approve(s, p, approver, o);
      var (world, assign) := Assign.Outcome(s.world, Assign.AssignCall(s.agent.proposals[p].payload.lineItemId.value, None, approver, None), o.assign);
      && after.world == world
      && (assign.Thrown? ==> after.agent == s.agent && result == Err(assign.error))
      && (assign.Blocked? ==> DecidedAs(s.agent, after.agent, p, ProposalFailed, approver, o.now, []))
      && (assign.Done? ==> DecidedAs(s.agent, after.agent, p, Executed, approver, o.now, []))
  {
    DecidableMeans(s.agent, p);
    forall status | status != Pending
      ensures var decided := Decided(s.agent, p, status, approver, o.now, []);
        var after := ResumeRun(decided, s.agent.proposals[p].runId, o.turn, o.now).0; p < |after.proposals| && after.proposals[p] == decided.proposals[p]
    {
      ResumingSparesDecided(Decided(s.agent, p, status, approver, o.now, []), s.agent.proposals[p].runId, o.turn, o.now, p);
    }
    hide ResumeRun, Undecidable, Db.Valid, Assign.Outcome;
  }

  /** A rejection asks no switch: the proposal is rejected by that person at that time, if it can be
      decided at all, and the run is resumed. */
  lemma RejectsExactlyWhen(a: Agent, p: nat, approver: Actor, turn: Turn, now: Time)
    ensures !Decidable(a, p) ==>
      AgentApproval.Reject(a, p, approver, turn, now) == (a, Err(if p >= |a.proposals| then NotFound else Conflict))
    ensures Decidable(a, p) ==>
      && DecidedAs(a, AgentApproval.Reject(a, p, approver, turn, now).0, p, Rejected, approver, now, a.proposals[p].createdLineItemIds)
      && AgentApproval.Reject(a, p, approver, turn, now) ==
           ResumeRun(a.(proposals := a.proposals[p := a.proposals[p].(status := Rejected, approvedById := Some(approver.id), decidedAt := Some(now))]),
                     a.proposals[p].runId, turn, now)
  {
    DecidableMeans(a, p);
    if Decidable(a, p) {
      var decided := Decided(a, p, Rejected, approver, now, a.proposals[p].createdLineItemIds);
      ResumingSparesDecided(decided, a.proposals[p].runId, turn, now, p);
      assert decided == a.(proposals := a.proposals[p := a.proposals[p].(status := Rejected, approvedById := Some(approver.id), decidedAt := Some(now))]);
    }
    hide ResumeRun, Undecidable;
  }
}
