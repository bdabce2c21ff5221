/**
  Over any run of calls: every ledger cell is its starting value plus the seats the
  timeline says were charged to it, the platform's seat counts drift from the tenant
  only through assigns that could not read the tenant, and all licences of a request
  went to one user.
 */
module SeatHistory {
  import opened Wrappers
  import opened Stages
  import opened Database
  import opened Outside
  import opened History
  import opened Seats
  import opened AssignSeats
  import opened Platform
  import PlatformHistory
  import StageService
  import RequestService
  import SyncGates
  import Assign
  import IntakeService
  import OutboundRequest
  import OutboundRetry
  import LicenceTicket
  import FailureQueue
  import J = Json

  lemma CreateMovesNoSeat(db: Db, req: Request, newLines: seq<NewLine>)
    requires db.Valid() && req.opcoId in db.catalogue.opcos && db.ValidLines(newLines) && !db.SysIdTaken(req.serviceNowSysId)
    ensures SeatsStill(db, db.CreateRequest(req, newLines))
  {
    IdsInRange(db);
    hide Db.Valid;
  }

  lemma StillTransitive(a: Db, b: Db, c: Db)
    requires SeatsStill(a, b) && SeatsStill(b, c)
    requires forall l :: l in a.lines && l in b.lines && a.lines[l].stage == Assigned ==> b.lines[l].stage == Assigned
    ensures SeatsStill(a, c)
  {
  }

  lemma IntakesMoveNoSeat(w: World, c: Call)
    requires w.db.Valid() && (c.FileRequest? || c.PushRequest?)
    ensures SeatsStill(w.db, Step(w, c).db)
  {
    hide Db.CreateRequest, SeatsStill;
    StillReflexive(w.db);
    match c {
      case FileRequest(dto, record, actor) =>
        if RequestService.Intake(w.db, dto, record, actor).1.Ok? {
          CreateMovesNoSeat(w.db, RequestService.IntakeRow(dto, record), []);
        }
      case PushRequest(dto, writeFails) => PushMovesNoSeat(w.db, dto, writeFails);
    }
  }

  lemma StillReflexive(db: Db)
    ensures SeatsStill(db, db)
  {
  }

  lemma PushMovesNoSeat(db: Db, dto: IntakeService.IntakeDto, writeFails: bool)
    requires db.Valid()
    ensures SeatsStill(db, IntakeService.Intake(db, dto, writeFails).0)
  {
    hide Db.CreateRequest, SeatsStill;
    StillReflexive(db);
    var resolved := IntakeService.Resolve(db, dto);
    if resolved.Ok? && !db.SysIdTaken(resolved.value.0.serviceNowSysId) {
      CreateMovesNoSeat(db, resolved.value.0, resolved.value.1);
    }
  }

  /** One line authored, removed or moved by hand: one row that is not an ASSIGN, one status. */
  lemma LineEditMovesNoSeat(db: Db, after: Db, r: RequestId, e: Event)
    requires r < |db.requests| && |after.requests| == |db.requests| && !e.Assign?
    requires after == db.(requests := after.requests, lines := after.lines, nextLine := after.nextLine, events := db.events + [e])
    requires after.requests == db.requests[r := db.requests[r].(status := after.requests[r].status)]
    requires forall l :: l in db.lines && db.lines[l].stage == Assigned ==> l in after.lines && after.lines[l] == db.lines[l]
    ensures SeatsStill(db, after)
  {
  }

  lemma AddMovesNoSeat(db: Db, r: nat, dto: RequestService.LineDto, actor: Actor)
    requires db.Valid()
    ensures SeatsStill(db, RequestService.AddLine(db, r, dto, actor).0)
  {
    IdsInRange(db);
    StillReflexive(db);
    hide StagesOf, StatusOf, Db.Valid, SeatsStill;
    if RequestService.AddLine(db, r, dto, actor).1.Ok? {
      LineEditMovesNoSeat(db, RequestService.AddLine(db, r, dto, actor).0, r, Note(r));
    }
  }

  lemma RemoveMovesNoSeat(db: Db, r: nat, l: LineId, actor: Actor)
    requires db.Valid()
    ensures SeatsStill(db, RequestService.RemoveLine(db, r, l, actor).0)
  {
    StillReflexive(db);
    hide StagesOf, StatusOf, Db.Valid, SeatsStill;
    if RequestService.RemoveLine(db, r, l, actor).1.Ok? {
      LineEditMovesNoSeat(db, RequestService.RemoveLine(db, r, l, actor).0, r, Note(r));
    }
  }

  lemma AdvanceMovesNoSeat(db: Db, l: LineId, toStage: Stage, actor: Actor, now: Time)
    requires db.Valid()
    ensures SeatsStill(db, StageService.Advance(db, l, toStage, actor, now).0)
  {
    StillReflexive(db);
    StageService.AdvanceWrites(db, l, toStage, actor, now);
    hide StageService.Advance, Db.Valid, SeatsStill;
    if StageService.Advance(db, l, toStage, actor, now).1.Ok? {
      var item := db.lines[l];
      LineEditMovesNoSeat(db, StageService.Advance(db, l, toStage, actor, now).0, item.requestId,
                          StageChange(item.requestId, l, item.stage, toStage));
    }
  }

  lemma HeaderEditMovesNoSeat(db: Db, r: RequestId, req: Request, e: Event)
    requires db.Valid() && r < |db.requests| && e.requestId == r && Silent(e)
    requires req.opcoId == db.requests[r].opcoId && req.serviceNowSysId == db.requests[r].serviceNowSysId
    ensures SeatsStill(db, db.SetRequest(r, req).AddEvent(e))
  {
    hide Db.Valid;
  }

  lemma EditMovesNoSeat(db: Db, r: nat, patch: RequestService.HeaderPatch, actor: Actor)
    requires db.Valid()
    ensures SeatsStill(db, RequestService.UpdateHeader(db, r, patch, actor).0)
  {
    hide SeatsStill, Db.AddEvent, Db.SetRequest;
    StillReflexive(db);
    if r < |db.requests| {
      HeaderEditMovesNoSeat(db, r, RequestService.Patched(db.requests[r], patch), Note(r));
    }
  }

  lemma GatesMoveNoSeat(db: Db, r: RequestId, userSysId: string, now: Time)
    requires db.Valid() && r < |db.requests|
    ensures SeatsStill(db, SyncGates.OpenAzure(db, r, now))
    ensures SeatsStill(db, SyncGates.OpenServiceNowUser(db, r, userSysId, now))
  {
    hide SeatsStill, Db.AddEvent, Db.SetRequest;
    var req := db.requests[r];
    var created := if req.accountCreatedAt.Some? then req.accountCreatedAt else Some(now);
    HeaderEditMovesNoSeat(db, r, req.(azureSyncedAt := Some(now), accountCreatedAt := created), Sync(r));
    HeaderEditMovesNoSeat(db, r, req.(serviceNowUserSyncedAt := Some(now), serviceNowUserSysId := Some(userSysId)), Sync(r));
  }

  lemma RaiseMovesNoSeat(w: World, r: RequestId, dto: IntakeService.IntakeDto, requesterSysId: string, outcome: SubmitOutcome, writeFails: bool)
    requires w.db.Valid() && r < |w.db.requests|
    ensures var after := LicenceTicket.Raise(w, r, dto, requesterSysId, outcome, writeFails);
      SeatsStill(w.db, after.db) && after.holdings == w.holdings && after.grants == w.grants
  {
    hide Db.Valid, LicenceTicket.Payload, FailureQueue.NewFailure, LicenceTicket.LineIds, LicenceTicket.HasRitm,
         LicenceTicket.Ticketed, OutboundRequest.TicketRef;
  }

  lemma FlatMovesNoSeat(w: World, c: Call)
    requires w.db.Valid() && c.PushFlat?
    ensures var after := Step(w, c);
      SeatsStill(w.db, after.db) && after.holdings == w.holdings && after.grants == w.grants
  {
    hide SeatsStill, IntakeService.Intake, LicenceTicket.Raise;
    StillReflexive(w.db);
    if c.req.ReqFound? && LicenceTicket.ActiveOpco(w.db.catalogue, c.flatDto.opcoCode) {
      var canonical := LicenceTicket.Canonical(w.db.catalogue, c.flatDto, c.defaultSkuId, c.req.sysId);
      var (db, created) := IntakeService.Intake(w.db, canonical, c.writeFails);
      PushMovesNoSeat(w.db, canonical, c.writeFails);
      if created.Ok? {
        RaiseMovesNoSeat(w.(db := db), created.value, canonical, c.req.openedBySysId, c.submit, c.ticketWriteFails);
        PushKeepsStages(w.db, canonical, c.writeFails);
        StillTransitive(w.db, db, Step(w, c).db);
      }
    }
  }

  lemma PushKeepsStages(db: Db, dto: IntakeService.IntakeDto, writeFails: bool)
    requires db.Valid()
    ensures forall l :: l in db.lines ==> var after := IntakeService.Intake(db, dto, writeFails).0; l in after.lines && after.lines[l] == db.lines[l]
  {
    IdsInRange(db);
    hide Db.Valid;
  }

  lemma OutboundMovesNoSeat(w: World, c: Call)
    requires w.db.Valid() && c.CreateOutbound?
    ensures var after := Step(w, c);
      SeatsStill(w.db, after.db) && after.holdings == w.holdings && after.grants == w.grants
  {
    hide SeatsStill, Db.CreateRequest, OutboundRequest.Payload, OutboundRequest.TicketRef, FailureQueue.NewFailure;
    var after := Step(w, c).db;
    QueueMovesNoSeat(w.db, after.failures);
    if Step(w, c) == w {
      StillReflexive(w.db);
    } else if !c.submit.SubmitThrows? && OutboundRequest.MirrorWritable(w.db, c.createDto, c.submit, c.writeFails) {
      var opcoId := w.db.catalogue.opcoByCode[c.createDto.opcoCode];
      CreateMovesNoSeat(w.db, OutboundRequest.MirrorRow(c.createDto, opcoId, c.submit),
                        OutboundRequest.MirrorLines(w.db.catalogue, c.createDto.lineItems, c.submit));
    }
  }

  lemma QueueMovesNoSeat(db: Db, failures: seq<Failure>)
    ensures SeatsStill(db, db.(failures := failures))
  {
  }

  lemma WriteMirrorMovesNoSeat(db: Db, payload: map<string, J.Json>, refs: OutboundRetry.MirrorRefs, writeFails: bool)
    requires db.Valid()
    ensures SeatsStill(db, OutboundRetry.WriteMirror(db, payload, refs, writeFails).0)
  {
    hide SeatsStill, Db.CreateRequest, OutboundRetry.PayloadLines;
    StillReflexive(db);
    var lines := OutboundRetry.PayloadLines(payload);
    var opcoCode := J.ToText(J.Get(payload, "opcoCode"));
    if opcoCode in db.catalogue.opcoByCode && refs.serviceNowSysId !in db.requestBySysId
       && OutboundRetry.AllKnown(db.catalogue, lines) && !writeFails {
      CreateMovesNoSeat(db, OutboundRetry.RepairedRow(payload, db.catalogue.opcoByCode[opcoCode], refs),
                        OutboundRetry.RepairedLines(db.catalogue, lines, refs));
    }
  }

  lemma RepairMovesNoSeat(w: World, id: FailureId, o: OutboundRetry.RepairOracle)
    requires w.db.Valid() && id < |w.db.failures|
    ensures var after := OutboundRetry.Repair(w, id, o).0;
      SeatsStill(w.db, after.db) && after.holdings == w.holdings && after.grants == w.grants
  {
    hide SeatsStill, OutboundRetry.WriteMirror, OutboundRetry.RecordedRefs, OutboundRetry.SubmittedRefs;
    StillReflexive(w.db);
    var payload := J.ToBag(w.db.failures[id].payload);
    if o.submit.Submitted? {
      WriteMirrorMovesNoSeat(w.db, payload, OutboundRetry.SubmittedRefs(o.submit), o.localWriteFails);
    }
    WriteMirrorMovesNoSeat(w.db, payload, OutboundRetry.RecordedRefs(w.db.failures[id].externalRef), o.localWriteFails);
  }

  lemma QueueAfterStill(a: Db, b: Db, failures: seq<Failure>)
    requires SeatsStill(a, b)
    ensures SeatsStill(a, b.(failures := failures))
  {
  }

  lemma QueueCallsMoveNoSeat(w: World, c: Call)
    requires w.db.Valid() && (c.RetryFailure? || c.AbandonFailure? || c.ReopenFailure?)
    ensures var after := Step(w, c);
      SeatsStill(w.db, after.db) && after.holdings == w.holdings && after.grants == w.grants
  {
    hide SeatsStill, OutboundRetry.Repair, Db.Valid;
    StillReflexive(w.db);
    var failures := Step(w, c).db.failures;
    QueueMovesNoSeat(w.db, failures);
    if c.RetryFailure? && OutboundRetry.Retryable(w.db, c.failureId) {
      RepairMovesNoSeat(w, c.failureId, c.repair);
      QueueAfterStill(w.db, OutboundRetry.Repair(w, c.failureId, c.repair).0.db, failures);
    }
  }

  /** Only an assign touches seats, licences and ASSIGN rows. */
  lemma OtherCallsMoveNoSeat(w: World, c: Call)
    requires w.db.Valid() && !c.AssignLine?
    ensures var after := Step(w, c);
      SeatsStill(w.db, after.db) && after.holdings == w.holdings && after.grants == w.grants
  {
    hide SeatsStill, Db.Valid, RequestService.Intake, IntakeService.Intake, LicenceTicket.IntakeFlat, OutboundRequest.Create,
         OutboundRetry.Retry, OutboundRetry.Abandon, OutboundRetry.Reopen, RequestService.AddLine, RequestService.UpdateHeader,
         RequestService.RemoveLine, StageService.Advance, SyncGates.OpenAzure, SyncGates.OpenServiceNowUser;
    StillReflexive(w.db);
    match c
    case FileRequest(_, _, _) => IntakesMoveNoSeat(w, c);
    case PushRequest(_, _) => IntakesMoveNoSeat(w, c);
    case PushFlat(_, _, _, _, _, _) => FlatMovesNoSeat(w, c);
    case CreateOutbound(_, _, _, _) => OutboundMovesNoSeat(w, c);
    case RetryFailure(_, _, _) => QueueCallsMoveNoSeat(w, c);
    case QueueNotification(_, _) => QueueMovesNoSeat(w.db, Step(w, c).db.failures);
    case AbandonFailure(_, _) => QueueCallsMoveNoSeat(w, c);
    case ReopenFailure(_) => QueueCallsMoveNoSeat(w, c);
    case AddLine(r, dto, actor) => AddMovesNoSeat(w.db, r, dto, actor);
    case EditHeader(r, patch, actor) => EditMovesNoSeat(w.db, r, patch, actor);
    case RemoveLine(r, l, actor) => RemoveMovesNoSeat(w.db, r, l, actor);
    case AdvanceLine(l, toStage, actor, now) => AdvanceMovesNoSeat(w.db, l, toStage, actor, now);
    case MarkSynced(r, _, now) => if r < |w.db.requests| { GatesMoveNoSeat(w.db, r, "", now); }
    case SweepAzure(r, now) => if r < |w.db.requests| { GatesMoveNoSeat(w.db, r, "", now); }
    case SweepServiceNowUser(r, userSysId, now) => if r < |w.db.requests| { GatesMoveNoSeat(w.db, r, userSysId, now); }
  }

  // ── over runs ──

  /** Every licence granted for a request went to the user the request still names,
      through a gate that is still open. */
  ghost predicate GrantsStand(w: World) {
    forall i :: 0 <= i < |w.grants| ==>
      var g := w.grants[i];
      && g.requestId < |w.db.requests|
      && w.db.requests[g.requestId].azureSyncedAt.Some?
      && g.targetUpn == w.db.requests[g.requestId].targetUpn
  }

  lemma OldGrantsStand(w: World, db: Db)
    requires GrantsStand(w) && Evolves(w.db, db)
    ensures GrantsStand(w.(db := db))
  {
    forall i | 0 <= i < |w.grants|
      ensures w.grants[i].requestId < |db.requests|
      ensures db.requests[w.grants[i].requestId].azureSyncedAt.Some?
      ensures w.grants[i].targetUpn == db.requests[w.grants[i].requestId].targetUpn
    {
      assert RequestEvolves(w.db.requests[w.grants[i].requestId], db.requests[w.grants[i].requestId]);
    }
  }

  lemma OneMoreGrant(a: World, b: World, g: Grant)
    requires GrantsStand(a) && b.db == a.db && b.grants == a.grants + [g]
    requires g.requestId < |b.db.requests| && b.db.requests[g.requestId].azureSyncedAt.Some?
    requires g.targetUpn == b.db.requests[g.requestId].targetUpn
    ensures GrantsStand(b)
  {
  }

  lemma AssignKeepsGrants(w: World, call: Assign.AssignCall, o: Assign.Oracle)
    requires Sound(w.db) && GrantsStand(w)
    ensures GrantsStand(Assign.Outcome(w, call, o).0)
  {
    IdsInRange(w.db);
    PlatformHistory.AssignKeeps(w, call, o);
    assert w.db.Valid();
    hide Sound, GrantsStand, Db.Valid;
    var after := Assign.Outcome(w, call, o).0;
    var evolved := w.(db := after.db);
    OldGrantsStand(w, after.db);
    if Assign.Outcome(w, call, o).1.Done? {
      DoneGrantsTheUser(w, call, o);
      var c := Assign.ContextOf(w, call, o);
      hide Assign.Outcome;
      assert RequestEvolves(c.request, after.db.requests[c.line.requestId]);
      if c.holding == Held {
        SameGrants(evolved, after);
      } else {
        OneMoreGrant(evolved, after, Grant(c.line.requestId, c.request.targetUpn, c.sku.skuId));
      }
    } else {
      RefusalMovesNoSeat(w, call, o);
    }
  }

  lemma StepKeepsGrants(w: World, c: Call)
    requires Sound(w.db) && GrantsStand(w)
    ensures GrantsStand(Step(w, c))
  {
    if c.AssignLine? {
      AssignKeepsGrants(w, c.assignCall, c.answers);
    } else {
      PlatformHistory.StepKeeps(w, c);
      OldGrantsStand(w, Step(w, c).db);
      OtherCallsMoveNoSeat(w, c);
      hide GrantsStand, Step;
      assert Step(w, c).holdings == w.holdings;
      SameGrants(w.(db := Step(w, c).db), Step(w, c));
    }
  }

  lemma SameGrants(a: World, b: World)
    requires GrantsStand(a) && a.grants == b.grants && a.db == b.db
    ensures GrantsStand(b)
  {
  }

  /** All the licences ever granted for one request go to one user. */
  lemma {:induction false} RunGrantsOneUser(w: World, calls: seq<Call>)
    requires Sound(w.db) && GrantsStand(w)
    ensures GrantsStand(Run(w, calls))
    ensures forall i, j :: 0 <= i < j < |Run(w, calls).grants| && Run(w, calls).grants[i].requestId == Run(w, calls).grants[j].requestId ==>
      Run(w, calls).grants[i].targetUpn == Run(w, calls).grants[j].targetUpn
    decreases |calls|
  {
    assert w.db.Valid();
    hide Sound, Db.Valid, Step;
    if calls != [] {
      PlatformHistory.StepKeeps(w, calls[0]);
      StepKeepsGrants(w, calls[0]);
      RunGrantsOneUser(Step(w, calls[0]), calls[1..]);
    }
  }

  lemma StepStaysExplained(w: World, c: Call, cell: Cell)
    requires Sound(w.db)
    ensures Unexplained(Step(w, c).db, cell) == Unexplained(w.db, cell)
  {
    if c.AssignLine? {
      AssignStaysExplained(w, c.assignCall, c.answers, cell);
    } else {
      OtherCallsMoveNoSeat(w, c);
      StillSeatsStayExplained(w.db, Step(w, c).db, cell);
    }
  }

  /** The ledger replays: after any run a cell holds what it held before, plus one for every
      ASSIGN row the run wrote for that OpCo and SKU that was not already held. */
  lemma {:induction false} RunStaysExplained(w: World, calls: seq<Call>, cell: Cell)
    requires Sound(w.db)
    ensures Unexplained(Run(w, calls).db, cell) == Unexplained(w.db, cell)
    decreases |calls|
  {
    assert w.db.Valid();
    hide Sound, Db.Valid, Step, Unexplained;
    if calls != [] {
      PlatformHistory.StepKeeps(w, calls[0]);
      StepStaysExplained(w, calls[0], cell);
      RunStaysExplained(Step(w, calls[0]), calls[1..], cell);
    }
  }

  /** The call assigns a seat of this SKU to a user who, unread, held it already. */
  predicate BlindCall(w: World, c: Call, sku: SkuRowId)
    requires w.db.Valid()
  {
    c.AssignLine? && Blind(w, c.assignCall, c.answers, sku)
  }

  function BlindCalls(w: World, calls: seq<Call>, sku: SkuRowId): nat
    requires w.db.Valid()
    decreases |calls|
  {
    if calls == [] then 0
    else (if BlindCall(w, calls[0], sku) then 1 else 0) + BlindCalls(Step(w, calls[0]), calls[1..], sku)
  }

  /** The assigns whose holding read did not answer. */
  function UnreadCalls(calls: seq<Call>): nat {
    if calls == [] then 0
    else (if calls[0].AssignLine? && calls[0].answers.holdingReadThrows then 1 else 0) + UnreadCalls(calls[1..])
  }

  lemma StepDrifts(w: World, c: Call, sku: SkuRowId)
    requires w.db.Valid() && sku in w.db.catalogue.skus
    ensures var after := Step(w, c);
      && after.db.catalogue == w.db.catalogue
      && Drift(after.db, after.holdings, sku) == Drift(w.db, w.holdings, sku) + (if BlindCall(w, c, sku) then 1 else 0)
  {
    if c.AssignLine? {
      hide Drift, Assign.Outcome, Blind;
      AssignDrifts(w, c.assignCall, c.answers, sku);
    } else {
      hide Step;
      OtherCallsDriftNothing(w, c, sku);
    }
  }

  lemma OtherCallsDriftNothing(w: World, c: Call, sku: SkuRowId)
    requires w.db.Valid() && sku in w.db.catalogue.skus && !c.AssignLine?
    ensures var after := Step(w, c);
      after.db.catalogue == w.db.catalogue && Drift(after.db, after.holdings, sku) == Drift(w.db, w.holdings, sku)
  {
    hide Step, Db.Valid;
    OtherCallsMoveNoSeat(w, c);
    SeatSumFrame(w.db, Step(w, c).db, w.db.catalogue.opcos, sku);
  }

  /** The drift of a SKU never falls, and rises by exactly the number of blind double
      charges: at most the number of unread holdings, so not at all when every read answers. */
  lemma {:induction false} RunDrifts(w: World, calls: seq<Call>, sku: SkuRowId)
    requires w.db.Valid() && sku in w.db.catalogue.skus
    ensures var after := Run(w, calls);
      && after.db.catalogue == w.db.catalogue
      && Drift(after.db, after.holdings, sku) == Drift(w.db, w.holdings, sku) + BlindCalls(w, calls, sku)
    ensures BlindCalls(w, calls, sku) <= UnreadCalls(calls)
    decreases |calls|
  {
    hide Db.Valid, Step, Drift;
    if calls != [] {
      StepDrifts(w, calls[0], sku);
      RunDrifts(Step(w, calls[0]), calls[1..], sku);
    }
  }
}
