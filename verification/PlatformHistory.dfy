/** The invariants of History hold in every state the platform's calls can reach. */
module PlatformHistory {
  import opened Wrappers
  import opened Stages
  import opened Database
  import opened Outside
  import opened History
  import opened Platform
  import StageService
  import RequestService
  import SyncGates
  import Assign
  import IntakeService
  import OutboundRequest
  import OutboundRetry
  import LicenceTicket
  import AssignReport
  import FailureQueue
  import J = Json

  ghost predicate Keeps(before: Db, after: Db) {
    Sound(after) && Evolves(before, after)
  }

  lemma EvolvesReflexive(db: Db)
    requires Sound(db)
    ensures Keeps(db, db)
  {
    hide Sound;
  }

  lemma EvolvesTransitive(a: Db, b: Db, c: Db)
    requires Evolves(a, b) && Evolves(b, c)
    ensures Evolves(a, c)
  {
    forall r | 0 <= r < |a.requests| ensures RequestEvolves(a.requests[r], c.requests[r]) {
      assert RequestEvolves(a.requests[r], b.requests[r]) && RequestEvolves(b.requests[r], c.requests[r]);
    }
  }

  lemma FilingKeeps(db: Db, dto: RequestService.IntakeDto, lookup: RequestService.RecordLookup, actor: Actor)
    requires Sound(db)
    ensures Keeps(db, RequestService.Intake(db, dto, lookup, actor).0)
  {
    hide StatusAgrees, TimelineAgrees, AssignsStand, GatesPassed, Db.Valid;
    EvolvesReflexive(db);
    var row := RequestService.IntakeRow(dto, lookup);
    if RequestService.Intake(db, dto, lookup, actor).1.Ok? {
      CreateKeepsSound(db, row, []);
    }
  }

  lemma PushKeeps(db: Db, dto: IntakeService.IntakeDto, writeFails: bool)
    requires Sound(db)
    ensures Keeps(db, IntakeService.Intake(db, dto, writeFails).0)
  {
    hide StatusAgrees, TimelineAgrees, AssignsStand, GatesPassed;
    EvolvesReflexive(db);
    var resolved := IntakeService.Resolve(db, dto);
    if resolved.Ok? && !db.SysIdTaken(resolved.value.0.serviceNowSysId) {
      CreateKeepsSound(db, resolved.value.0, resolved.value.1);
    }
  }

  lemma AddKeeps(db: Db, r: nat, dto: RequestService.LineDto, actor: Actor)
    requires Sound(db)
    ensures Keeps(db, RequestService.AddLine(db, r, dto, actor).0)
  {
    hide TimelineAgrees, AssignsStand, GatesPassed, StagesOf, StatusOf, Db.Valid;
    EvolvesReflexive(db);
    if RequestService.AddLine(db, r, dto, actor).1.Ok? {
      InsertKeepsSound(db, r, RequestService.NewLineOf(dto));
    }
  }

  lemma RemoveKeeps(db: Db, r: nat, l: LineId, actor: Actor)
    requires Sound(db)
    ensures Keeps(db, RequestService.RemoveLine(db, r, l, actor).0)
  {
    hide TimelineAgrees, AssignsStand, GatesPassed, StagesOf, StatusOf, Db.Valid;
    EvolvesReflexive(db);
    if RequestService.RemoveLine(db, r, l, actor).1.Ok? {
      DeleteKeepsSound(db, l);
    }
  }

  lemma AdvanceKeeps(db: Db, l: LineId, toStage: Stage, actor: Actor, now: Time)
    requires Sound(db)
    ensures Keeps(db, StageService.Advance(db, l, toStage, actor, now).0)
  {
    hide TimelineAgrees, AssignsStand, GatesPassed, StagesOf, StatusOf, Db.Valid;
    EvolvesReflexive(db);
    if StageService.Advance(db, l, toStage, actor, now).1.Ok? {
      var item := db.lines[l];
      MoveKeepsSound(db, l, toStage, StageChange(item.requestId, l, item.stage, toStage), now);
    }
  }

  lemma HeaderKeeps(db: Db, r: nat, patch: RequestService.HeaderPatch, actor: Actor)
    requires Sound(db)
    ensures Keeps(db, RequestService.UpdateHeader(db, r, patch, actor).0)
  {
    assert db.Valid();
    hide Sound, Db.Valid;
    EvolvesReflexive(db);
    var (after, result) := RequestService.UpdateHeader(db, r, patch, actor);
    if after != db {
      EditKeepsSound(db, r, RequestService.Patched(db.requests[r], patch), Note(r));
    }
  }

  lemma OpenAzureKeeps(db: Db, r: nat, now: Time)
    requires Sound(db) && r < |db.requests|
    ensures Keeps(db, SyncGates.OpenAzure(db, r, now))
  {
    hide StatusAgrees, TimelineAgrees, AssignsStand, GatesPassed;
    var req := db.requests[r];
    var created := if req.accountCreatedAt.Some? then req.accountCreatedAt else Some(now);
    EditKeepsSound(db, r, req.(azureSyncedAt := Some(now), accountCreatedAt := created), Sync(r));
  }

  lemma OpenServiceNowUserKeeps(db: Db, r: nat, userSysId: string, now: Time)
    requires Sound(db) && r < |db.requests|
    ensures Keeps(db, SyncGates.OpenServiceNowUser(db, r, userSysId, now))
  {
    hide StatusAgrees, TimelineAgrees, AssignsStand, GatesPassed;
    var req := db.requests[r];
    EditKeepsSound(db, r, req.(serviceNowUserSyncedAt := Some(now), serviceNowUserSysId := Some(userSysId)), Sync(r));
  }

  /** The queue is bookkeeping: no row of it moves the domain. */
  lemma QueueKeeps(db: Db, after: Db)
    requires Sound(db) && after.Valid() && after == db.(failures := after.failures)
    ensures Keeps(db, after)
  {
    hide Sound;
    QuietKeepsSound(db, after);
  }

  lemma CommitKeeps(db: Db, l: LineId, holding: HoldingStatus, now: Time)
    requires Sound(db) && l in db.lines && db.lines[l].stage == Ready && GatesOpen(db, db.lines[l].requestId)
    ensures Keeps(db, Assign.Commit(db, l, holding, now))
  {
    hide Replay, StagesOf, StatusOf, Db.Valid;
    IdsInRange(db);
    var charged := if holding == Held then db else db.ChargeSeat(db.CellOf(l));
    assert charged.Valid();
    MoveKeepsSound(charged, l, Assigned, Event.Assign(db.lines[l].requestId, l, holding), now);
  }

  lemma AssignKeeps(w: World, call: Assign.AssignCall, o: Assign.Oracle)
    requires Sound(w.db)
    ensures Keeps(w.db, Assign.Outcome(w, call, o).0.db)
  {
    hide StatusAgrees, TimelineAgrees, AssignsStand, GatesPassed, Db.Valid, Assign.GateSteps;
    EvolvesReflexive(w.db);
    if Assign.Precheck(w.db, call).None? {
      var l := call.lineId;
      var c := Assign.ContextOf(w, call, o);
      var n := Assign.FirstStop(c, 0);
      if n == |Assign.GATE_KEYS| {
        SettleKeeps(w, call, o);
      } else {
        HoldKeeps(w.db, l, o);
      }
    }
  }

  /** New columns on the lines, new rows in the queue, another request column, another note:
      no stage, seat or status moves. */
  lemma AnnotationKeeps(db: Db, after: Db, r: nat)
    requires Sound(db) && after.Valid() && r < |db.requests|
    requires after == db.(requests := after.requests, lines := after.lines, failures := after.failures, events := after.events)
    requires |after.requests| == |db.requests| && after.requests == db.requests[r := after.requests[r]]
    requires after.requests[r] == db.requests[r].(serviceNowLicenceReqNumber := after.requests[r].serviceNowLicenceReqNumber)
    requires after.events == db.events || after.events == db.events + [Note(r)]
    requires after.lines.Keys == db.lines.Keys && forall l :: l in db.lines ==> SameLine(db.lines[l], after.lines[l])
    ensures Keeps(db, after)
  {
    hide StatusAgrees, TimelineAgrees, AssignsStand, GatesPassed, Db.Valid;
    assert Quiet(db, after);
    hide Sound;
    QuietKeepsSound(db, after);
  }

  lemma HoldKeeps(db: Db, l: LineId, o: Assign.Oracle)
    requires Sound(db) && l in db.lines
    ensures Keeps(db, Assign.HoldTicket(db, l, o))
  {
    IdsInRange(db);
    assert db.Valid();
    AssignReport.HoldTicketOnlyHoldsOrQueues(db, l, o);
    hide Sound, Keeps, Db.Valid, Assign.HoldTicket;
    AnnotationKeeps(db, Assign.HoldTicket(db, l, o), db.lines[l].requestId);
  }

  /** A context that passes every gate has a READY line under two open gates. */
  lemma PassedContextIsReady(w: World, call: Assign.AssignCall, o: Assign.Oracle)
    requires w.db.Valid() && call.lineId in w.db.lines
    requires Assign.StopsAt(Assign.ContextOf(w, call, o), |Assign.GATE_KEYS|)
    ensures w.db.lines[call.lineId].stage == Ready && GatesOpen(w.db, w.db.lines[call.lineId].requestId)
  {
    IdsInRange(w.db);
    hide Db.Valid;
    var c := Assign.ContextOf(w, call, o);
    assert Assign.VerdictOf(Assign.GATE_KEYS[0], c).Pass?;
    assert Assign.VerdictOf(Assign.GATE_KEYS[1], c).Pass?;
    assert Assign.VerdictOf(Assign.GATE_KEYS[2], c).Pass?;
  }

  /** Past the transaction only records are added. */
  lemma SettlingIsQuiet(db: Db, l: LineId, holding: HoldingStatus, o: Assign.Oracle)
    requires db.Valid() && l in db.lines
    ensures Quiet(Assign.Commit(db, l, holding, o.now), Assign.Settle(db, l, holding, o).0)
  {
    hide Assign.Commit, Assign.Settle, Quiet, Db.Valid;
    AssignReport.SettleAddsOnlyRecords(db, l, holding, o);
    RecordsAreQuiet(Assign.Commit(db, l, holding, o.now), Assign.Settle(db, l, holding, o).0, db.lines[l].requestId);
  }

  lemma SettleKeeps(w: World, call: Assign.AssignCall, o: Assign.Oracle)
    requires Sound(w.db) && call.lineId in w.db.lines
    requires Assign.StopsAt(Assign.ContextOf(w, call, o), |Assign.GATE_KEYS|)
    ensures Keeps(w.db, Assign.Settle(w.db, call.lineId, Assign.ContextOf(w, call, o).holding, o).0)
  {
    assert w.db.Valid();
    hide Sound, Evolves, Quiet, GatesOpen, Db.Valid, Assign.Commit, Assign.Settle, Assign.ContextOf;
    var l, holding := call.lineId, Assign.ContextOf(w, call, o).holding;
    PassedContextIsReady(w, call, o);
    CommitKeeps(w.db, l, holding, o.now);
    SettlingIsQuiet(w.db, l, holding, o);
    var committed, settled := Assign.Commit(w.db, l, holding, o.now), Assign.Settle(w.db, l, holding, o).0;
    QuietKeepsSound(committed, settled);
    EvolvesTransitive(w.db, committed, settled);
  }

  lemma RaiseKeeps(w: World, r: RequestId, dto: IntakeService.IntakeDto, requesterSysId: string, outcome: SubmitOutcome, writeFails: bool)
    requires Sound(w.db) && r < |w.db.requests|
    ensures Keeps(w.db, LicenceTicket.Raise(w, r, dto, requesterSysId, outcome, writeFails).db)
  {
    assert w.db.Valid();
    LicenceTicket.RaiseOnlyAnnotates(w, r, dto, requesterSysId, outcome, writeFails);
    hide Sound, Keeps, Db.Valid, LicenceTicket.Raise;
    AnnotationKeeps(w.db, LicenceTicket.Raise(w, r, dto, requesterSysId, outcome, writeFails).db, r);
  }

  lemma FlatKeeps(w: World, c: Call)
    requires Sound(w.db) && c.PushFlat?
    ensures Keeps(w.db, Step(w, c).db)
  {
    hide StatusAgrees, TimelineAgrees, AssignsStand, GatesPassed, Db.Valid, IntakeService.Intake, LicenceTicket.Raise;
    EvolvesReflexive(w.db);
    if c.req.ReqFound? && LicenceTicket.ActiveOpco(w.db.catalogue, c.flatDto.opcoCode) {
      var canonical := LicenceTicket.Canonical(w.db.catalogue, c.flatDto, c.defaultSkuId, c.req.sysId);
      PushKeeps(w.db, canonical, c.writeFails);
      var (db, created) := IntakeService.Intake(w.db, canonical, c.writeFails);
      if created.Ok? {
        RaiseKeeps(w.(db := db), created.value, canonical, c.req.openedBySysId, c.submit, c.ticketWriteFails);
        EvolvesTransitive(w.db, db, Step(w, c).db);
      }
    }
  }

  lemma OutboundKeeps(w: World, c: Call)
    requires Sound(w.db) && c.CreateOutbound?
    ensures Keeps(w.db, Step(w, c).db)
  {
    hide StatusAgrees, TimelineAgrees, AssignsStand, GatesPassed, Db.CreateRequest, OutboundRequest.Payload, OutboundRequest.TicketRef, FailureQueue.NewFailure;
    EvolvesReflexive(w.db);
    var after := Step(w, c).db;
    if Step(w, c) == w {
    } else if c.submit.SubmitThrows? || !OutboundRequest.MirrorWritable(w.db, c.createDto, c.submit, c.writeFails) {
      QueueKeeps(w.db, after);
    } else {
      var opcoId := w.db.catalogue.opcoByCode[c.createDto.opcoCode];
      CreateKeepsSound(w.db, OutboundRequest.MirrorRow(c.createDto, opcoId, c.submit),
                       OutboundRequest.MirrorLines(w.db.catalogue, c.createDto.lineItems, c.submit));
    }
  }

  lemma WriteMirrorKeeps(db: Db, payload: map<string, J.Json>, refs: OutboundRetry.MirrorRefs, writeFails: bool)
    requires Sound(db)
    ensures Keeps(db, OutboundRetry.WriteMirror(db, payload, refs, writeFails).0)
  {
    hide StatusAgrees, TimelineAgrees, AssignsStand, GatesPassed, OutboundRetry.PayloadLines;
    EvolvesReflexive(db);
    var lines := OutboundRetry.PayloadLines(payload);
    var opcoCode := J.ToText(J.Get(payload, "opcoCode"));
    if opcoCode in db.catalogue.opcoByCode && refs.serviceNowSysId !in db.requestBySysId
       && OutboundRetry.AllKnown(db.catalogue, lines) && !writeFails {
      CreateKeepsSound(db, OutboundRetry.RepairedRow(payload, db.catalogue.opcoByCode[opcoCode], refs),
                       OutboundRetry.RepairedLines(db.catalogue, lines, refs));
    }
  }

  lemma RetryKeeps(w: World, id: nat, actor: Actor, o: OutboundRetry.RepairOracle)
    requires Sound(w.db)
    ensures Keeps(w.db, OutboundRetry.Retry(w, id, actor, o).0.db)
  {
    hide StatusAgrees, TimelineAgrees, AssignsStand, GatesPassed, Db.Valid, OutboundRetry.WriteMirror,
         OutboundRetry.RecordedRefs, OutboundRetry.SubmittedRefs;
    EvolvesReflexive(w.db);
    if OutboundRetry.Retryable(w.db, id) {
      var payload := J.ToBag(w.db.failures[id].payload);
      if o.submit.Submitted? {
        WriteMirrorKeeps(w.db, payload, OutboundRetry.SubmittedRefs(o.submit), o.localWriteFails);
      }
      WriteMirrorKeeps(w.db, payload, OutboundRetry.RecordedRefs(w.db.failures[id].externalRef), o.localWriteFails);
      var repaired := OutboundRetry.Repair(w, id, o).0.db;
      assert Keeps(w.db, repaired);
      var after := OutboundRetry.Retry(w, id, actor, o).0.db;
      QueueKeeps(repaired, after);
      EvolvesTransitive(w.db, repaired, after);
    }
  }

  lemma QueueDecisionKeeps(w: World, c: Call)
    requires Sound(w.db) && (c.AbandonFailure? || c.ReopenFailure?)
    ensures Keeps(w.db, Step(w, c).db)
  {
    hide StatusAgrees, TimelineAgrees, AssignsStand, GatesPassed, Db.Valid;
    QueueKeeps(w.db, Step(w, c).db);
  }

  lemma MarkSyncedKeeps(db: Db, r: nat, actor: Actor, now: Time)
    requires Sound(db)
    ensures Keeps(db, SyncGates.MarkSynced(db, r, actor, now).0)
  {
    assert db.Valid();
    hide Sound, Keeps, Db.Valid, SyncGates.OpenAzure;
    EvolvesReflexive(db);
    if r < |db.requests| {
      OpenAzureKeeps(db, r, now);
    }
  }

  lemma FileRequestKeeps(w: World, c: Call)
    requires Sound(w.db) && c.FileRequest?
    ensures Keeps(w.db, Step(w, c).db)
  {
    assert w.db.Valid();
    hide Sound, Keeps, Db.Valid, RequestService.Intake;
    FilingKeeps(w.db, c.fileDto, c.record, c.actor);
  }

  lemma AddLineKeeps(w: World, c: Call)
    requires Sound(w.db) && c.AddLine?
    ensures Keeps(w.db, Step(w, c).db)
  {
    assert w.db.Valid();
    hide Sound, Keeps, Db.Valid, RequestService.AddLine;
    AddKeeps(w.db, c.requestId, c.lineDto, c.actor);
  }

  lemma EditHeaderKeeps(w: World, c: Call)
    requires Sound(w.db) && c.EditHeader?
    ensures Keeps(w.db, Step(w, c).db)
  {
    assert w.db.Valid();
    hide Sound, Keeps, Db.Valid, RequestService.UpdateHeader;
    HeaderKeeps(w.db, c.requestId, c.patch, c.actor);
  }

  lemma RemoveLineKeeps(w: World, c: Call)
    requires Sound(w.db) && c.RemoveLine?
    ensures Keeps(w.db, Step(w, c).db)
  {
    assert w.db.Valid();
    hide Sound, Keeps, Db.Valid, RequestService.RemoveLine;
    RemoveKeeps(w.db, c.requestId, c.lineId, c.actor);
  }

  lemma AdvanceLineKeeps(w: World, c: Call)
    requires Sound(w.db) && c.AdvanceLine?
    ensures Keeps(w.db, Step(w, c).db)
  {
    assert w.db.Valid();
    hide Sound, Keeps, Db.Valid, StageService.Advance;
    AdvanceKeeps(w.db, c.lineId, c.toStage, c.actor, c.now);
  }

  lemma MarkKeeps(w: World, c: Call)
    requires Sound(w.db) && c.MarkSynced?
    ensures Keeps(w.db, Step(w, c).db)
  {
    assert w.db.Valid();
    hide Sound, Keeps, Db.Valid, SyncGates.MarkSynced;
    MarkSyncedKeeps(w.db, c.requestId, c.actor, c.now);
  }

  lemma SweepAzureKeeps(w: World, c: Call)
    requires Sound(w.db) && c.SweepAzure?
    ensures Keeps(w.db, Step(w, c).db)
  {
    assert w.db.Valid();
    hide Sound, Keeps, Db.Valid, SyncGates.OpenAzure;
    EvolvesReflexive(w.db);
    if c.requestId < |w.db.requests| {
      OpenAzureKeeps(w.db, c.requestId, c.now);
    }
  }

  lemma SweepServiceNowUserKeeps(w: World, c: Call)
    requires Sound(w.db) && c.SweepServiceNowUser?
    ensures Keeps(w.db, Step(w, c).db)
  {
    assert w.db.Valid();
    hide Sound, Keeps, Db.Valid, SyncGates.OpenServiceNowUser;
    EvolvesReflexive(w.db);
    if c.requestId < |w.db.requests| {
      OpenServiceNowUserKeeps(w.db, c.requestId, c.userSysId, c.now);
    }
  }

  lemma NotificationKeeps(w: World, c: Call)
    requires Sound(w.db) && c.QueueNotification?
    ensures Keeps(w.db, Step(w, c).db)
  {
    assert w.db.Valid();
    hide Sound, Keeps, Db.Valid, FailureQueue.NewFailure;
    QueueKeeps(w.db, Step(w, c).db);
  }

  /** The calls that mirror a request, and the queue decisions. */
  lemma TicketCallsKeep(w: World, c: Call)
    requires Sound(w.db) && (c.PushRequest? || c.PushFlat? || c.CreateOutbound? || c.RetryFailure? || c.AbandonFailure? || c.ReopenFailure?)
    ensures Keeps(w.db, Step(w, c).db)
  {
    assert w.db.Valid();
    hide Sound, Keeps, Db.Valid, IntakeService.Intake, LicenceTicket.IntakeFlat, OutboundRequest.Create, OutboundRetry.Retry,
         OutboundRetry.Abandon, OutboundRetry.Reopen;
    match c
    case PushRequest(dto, writeFails) => PushKeeps(w.db, dto, writeFails);
    case PushFlat(_, _, _, _, _, _) => FlatKeeps(w, c);
    case CreateOutbound(_, _, _, _) => OutboundKeeps(w, c);
    case RetryFailure(id, actor, repair) => RetryKeeps(w, id, actor, repair);
    case AbandonFailure(_, _) => QueueDecisionKeeps(w, c);
    case ReopenFailure(_) => QueueDecisionKeeps(w, c);
  }

  lemma AssignCallKeeps(w: World, c: Call)
    requires Sound(w.db) && c.AssignLine?
    ensures Keeps(w.db, Step(w, c).db)
  {
    assert w.db.Valid();
    hide Sound, Keeps, Db.Valid, Assign.Outcome;
    AssignKeeps(w, c.assignCall, c.answers);
  }

  lemma StepKeeps(w: World, c: Call)
    requires Sound(w.db)
    ensures Keeps(w.db, Step(w, c).db)
  {
    assert w.db.Valid();
    hide Step, Sound, Keeps, Db.Valid;
    match c
    case AssignLine(_, _) => AssignCallKeeps(w, c);
    case QueueNotification(_, _) => NotificationKeeps(w, c);
    case FileRequest(_, _, _) => FileRequestKeeps(w, c);
    case AddLine(_, _, _) => AddLineKeeps(w, c);
    case EditHeader(_, _, _) => EditHeaderKeeps(w, c);
    case RemoveLine(_, _, _) => RemoveLineKeeps(w, c);
    case AdvanceLine(_, _, _, _) => AdvanceLineKeeps(w, c);
    case MarkSynced(_, _, _) => MarkKeeps(w, c);
    case SweepAzure(_, _) => SweepAzureKeeps(w, c);
    case SweepServiceNowUser(_, _, _) => SweepServiceNowUserKeeps(w, c);
    case _ => TicketCallsKeep(w, c);
  }

  /** The invariants hold after any run of calls, and every request has evolved within
      the rules: gates still open, UPN still the one that synced, completion kept. */
  lemma {:induction false} RunKeeps(w: World, calls: seq<Call>)
    requires Sound(w.db)
    ensures Keeps(w.db, Run(w, calls).db)
    decreases |calls|
  {
    assert w.db.Valid();
    hide Step, Sound, Evolves, Db.Valid;
    EvolvesReflexive(w.db);
    if calls != [] {
      StepKeeps(w, calls[0]);
      RunKeeps(Step(w, calls[0]), calls[1..]);
      EvolvesTransitive(w.db, Step(w, calls[0]).db, Run(w, calls).db);
    }
  }

  lemma RunKeepsCatalogue(w: World, calls: seq<Call>)
    requires w.db.Valid() && Sound(w.db)
    ensures Run(w, calls).db.catalogue == w.db.catalogue
  {
    hide Run, Sound, Db.Valid;
    RunKeeps(w, calls);
  }
}
