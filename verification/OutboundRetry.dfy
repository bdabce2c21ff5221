/**
  Human-triggered repair of a queued failure (apps/api/src/fulfilment/outbound-retry.service.ts).
 */
module OutboundRetry {
  import opened Wrappers
  import opened Json
  import opened Stages
  import opened Database
  import opened Outside
  import FailureQueue
  import IntakeService

  /** The record a ticket move addresses. */
  datatype TicketTarget = Ritm(sysId: string) | Task(sysId: string)

  /** The vendor call that replays a queued note, ticket move or mail. */
  datatype Replay =
    | AddWorkNote(sysId: string, note: string, table: string)
    | CloseComplete(target: TicketTarget, note: string)
    | MarkInProgress(target: TicketTarget, note: string)
    | Send(to: string, template: string)

  /** The answers a repair may need: a fresh submission, the local write, and the replays the
      vendors accept. */
  datatype RepairOracle = RepairOracle(submit: SubmitOutcome, localWriteFails: bool, accepted: set<Replay>)

  /** The ServiceNow references a mirror is written from. */
  datatype MirrorRefs = MirrorRefs(serviceNowSysId: string, serviceNowNumber: Option<string>, lineItems: seq<LineRef>)

  datatype LineRef = LineRef(serviceNowSysId: Option<string>, serviceNowNumber: Option<string>)

  function PayloadLineOf(raw: Json): OrderLine {
    var line := ToBag(raw);
    OrderLine(ToText(Get(line, "skuId")), ToText(Get(line, "skuPartNumber")), ToCount(Get(line, "quantity")))
  }

  function PayloadLines(payload: map<string, Json>): seq<OrderLine> {
    var raw := ToList(Get(payload, "lineItems"));
    seq(|raw|, i requires 0 <= i < |raw| => PayloadLineOf(raw[i]))
  }

  /** What the repair of a submit row asks for: nothing stored says who the requester is by sysId. */
  function RepairOrder(payload: map<string, Json>): Order {
    Order(ToText(Get(payload, "targetUpn")), ToText(Get(payload, "opcoCode")), ToOption(Get(payload, "requesterEmail")), None,
          ToOption(Get(payload, "remark")), PayloadLines(payload))
  }

  function LineRefOf(raw: Json): LineRef {
    var line := ToBag(raw);
    LineRef(ToOption(Get(line, "serviceNowSysId")), ToOption(Get(line, "serviceNowNumber")))
  }

  function RecordedRefs(externalRef: Json): MirrorRefs {
    var bag := ToBag(externalRef);
    var raw := ToList(Get(bag, "lineItems"));
    MirrorRefs(ToText(Get(bag, "serviceNowSysId")), ToOption(Get(bag, "serviceNowNumber")),
               seq(|raw|, i requires 0 <= i < |raw| => LineRefOf(raw[i])))
  }

  function SubmittedRefs(outcome: SubmitOutcome): MirrorRefs
    requires outcome.Submitted?
  {
    MirrorRefs(outcome.serviceNowSysId, outcome.serviceNowNumber,
      seq(|outcome.lineItems|, i requires 0 <= i < |outcome.lineItems| =>
        LineRef(Some(outcome.lineItems[i].serviceNowSysId), outcome.lineItems[i].serviceNowNumber)))
  }

  /** The repair looks SKUs up without asking whether they are still active. */
  predicate AllKnown(catalogue: Catalogue, lines: seq<OrderLine>) {
    forall i :: 0 <= i < |lines| ==> lines[i].skuId in catalogue.skuByGuid && catalogue.skuByGuid[lines[i].skuId] in catalogue.skus
  }

  function RepairedRow(payload: map<string, Json>, opcoId: OpcoId, refs: MirrorRefs): Request {
    Request(ToText(Get(payload, "targetUpn")), ToOption(Get(payload, "targetDisplayName")), opcoId,
            ToOption(Get(payload, "requesterEmail")), ToOption(Get(payload, "remark")),
            Open, PlatformCreated, Some(refs.serviceNowSysId), refs.serviceNowNumber, None, None, None, None, None)
  }

  function RepairedLine(catalogue: Catalogue, line: OrderLine, refs: MirrorRefs, i: nat): NewLine
    requires line.skuId in catalogue.skuByGuid
  {
    var ref := if i < |refs.lineItems| then refs.lineItems[i] else LineRef(None, None);
    NewLine(catalogue.skuByGuid[line.skuId], line.quantity, false, ref.serviceNowSysId, ref.serviceNowNumber)
  }

  function RepairedLines(catalogue: Catalogue, lines: seq<OrderLine>, refs: MirrorRefs): seq<NewLine>
    requires AllKnown(catalogue, lines)
  {
    seq(|lines|, i requires 0 <= i < |lines| => RepairedLine(catalogue, lines[i], refs, i))
  }

  /** The local rows for one ticket, or the row an earlier repair already wrote. */
  function WriteMirror(db: Db, payload: map<string, Json>, refs: MirrorRefs, localWriteFails: bool): (out: (Db, Result<RequestId>))
    requires db.Valid()
    ensures out.0.Valid()
    ensures out.0.failures == db.failures
  {
    var opcoCode := ToText(Get(payload, "opcoCode"));
    var lines := PayloadLines(payload);
    if opcoCode !in db.catalogue.opcoByCode then (db, Err(BadRequest))
    else if refs.serviceNowSysId in db.requestBySysId then (db, Ok(db.requestBySysId[refs.serviceNowSysId]))
    else if !AllKnown(db.catalogue, lines) then (db, Err(BadRequest))
    else if localWriteFails then (db, Err(DatabaseError))
    else
      var row := RepairedRow(payload, db.catalogue.opcoByCode[opcoCode], refs);
      (db.CreateRequest(row, RepairedLines(db.catalogue, lines, refs)), Ok(|db.requests|))
  }

  function RepairSubmit(w: World, id: FailureId, o: RepairOracle): (out: (World, Result<RequestId>))
    requires w.db.Valid() && id < |w.db.failures|
    ensures out.0.db.Valid()
    ensures out.0.db.failures == w.db.failures
  {
    if o.submit.SubmitThrows? then (w, Err(Unavailable))
    else
      var payload := ToBag(w.db.failures[id].payload);
      var (db, result) := WriteMirror(w.db, payload, SubmittedRefs(o.submit), o.localWriteFails);
      (w.(db := db, tickets := w.tickets + [Ticket(o.submit.serviceNowSysId, ViaRetry(id), RepairOrder(payload))]), result)
  }

  /** No branch of this repair can reach the provider. */
  function RepairMirror(db: Db, id: FailureId, localWriteFails: bool): (out: (Db, Result<RequestId>))
    requires db.Valid() && id < |db.failures|
    ensures out.0.Valid()
    ensures out.0.failures == db.failures
  {
    var refs := RecordedRefs(db.failures[id].externalRef);
    if refs.serviceNowSysId == "" then (db, Err(BadRequest))
    else WriteMirror(db, ToBag(db.failures[id].payload), refs, localWriteFails)
  }

  /** The work note a row holds; without a table it goes to the RITM table. */
  function NoteReplay(row: Failure): Replay {
    var payload := ToBag(row.payload);
    var table := Get(payload, "table");
    AddWorkNote(ToText(Get(payload, "snTarget")), ToText(Get(payload, "note")),
                if table.Undefined? || table.Null? then "sc_req_item" else ToText(table))
  }

  /** The ticket move a row holds; it needs a target and a transition it recognises, and a
      target of no stated kind is a RITM. */
  function TicketReplay(row: Failure): Option<Replay> {
    var payload := ToBag(row.payload);
    var sysId := ToText(Get(payload, "snTarget"));
    var note := ToText(Get(payload, "note"));
    var target := if Get(payload, "targetKind") == Str("task") then Task(sysId) else Ritm(sysId);
    if sysId == "" then None
    else if Get(payload, "transition") == Str("close") then Some(CloseComplete(target, note))
    else if Get(payload, "transition") == Str("hold") then Some(MarkInProgress(target, note))
    else None
  }

  /** The templates that need no parameters: a queued row carries none. */
  const REPLAYABLE_TEMPLATES: set<string> := {"connectivity-check"}

  function MailReplay(row: Failure): Option<Replay> {
    var payload := ToBag(row.payload);
    var to, template := ToText(Get(payload, "to")), ToText(Get(payload, "template"));
    if to == "" || template !in REPLAYABLE_TEMPLATES then None else Some(Send(to, template))
  }

  /** The vendor call a row of these kinds is made good by, if there is one. */
  function ReplayOf(row: Failure): Option<Replay> {
    match row.kind
    case WorkNote => Some(NoteReplay(row))
    case TicketUpdate => TicketReplay(row)
    case Notification => MailReplay(row)
    case _ => None
  }

  /** A row of this kind can be made good by replaying what it holds. */
  predicate Replayable(row: Failure) {
    FailureQueue.CarriesLineItems(row.kind) || ReplayOf(row).Some?
  }

  predicate Replays(row: Failure, o: RepairOracle) {
    ReplayOf(row).Some? && ReplayOf(row).value in o.accepted
  }

  function Repair(w: World, id: FailureId, o: RepairOracle): (out: (World, Option<Error>))
    requires w.db.Valid() && id < |w.db.failures|
    ensures out.0.db.Valid()
    ensures out.0.db.failures == w.db.failures
  {
    match w.db.failures[id].kind
    case RequestSubmit =>
      var (after, result) := RepairSubmit(w, id, o);
      (after, if result.Ok? then None else Some(result.error))
    case RequestMirror =>
      var (db, result) := RepairMirror(w.db, id, o.localWriteFails);
      (w.(db := db), if result.Ok? then None else Some(result.error))
    case WorkNote => (w, if Replays(w.db.failures[id], o) then None else Some(Unavailable))
    case _ => (w, if Replays(w.db.failures[id], o) then None else Some(BadRequest))
  }

  /** A repair opens at most one ticket, and only a submit row's; the tables get a mirror or nothing. */
  lemma RepairTickets(w: World, id: FailureId, o: RepairOracle)
    requires w.db.Valid() && id < |w.db.failures|
    ensures var after := Repair(w, id, o).0;
      && after.holdings == w.holdings && after.grants == w.grants
      && after.tickets == w.tickets +
           (if w.db.failures[id].kind == RequestSubmit && o.submit.Submitted? 
            then [Ticket(o.submit.serviceNowSysId, ViaRetry(id), RepairOrder(ToBag(w.db.failures[id].payload)))] else [])
      && var payload := ToBag(w.db.failures[id].payload);
      || after.db == w.db
      || (o.submit.Submitted? && after.db == WriteMirror(w.db, payload, SubmittedRefs(o.submit), o.localWriteFails).0)
      || after.db == WriteMirror(w.db, payload, RecordedRefs(w.db.failures[id].externalRef), o.localWriteFails).0
  {
    hide WriteMirror, RecordedRefs, SubmittedRefs, Replays, Db.Valid;
  }

  /** A resolved row is closed for good; an open or abandoned one may be retried. */
  predicate Retryable(db: Db, id: nat) {
    id < |db.failures| && db.failures[id].status != Resolved
  }

  function Refusal(db: Db, id: nat): Error {
    if id < |db.failures| then BadRequest else NotFound
  }

  function Retry(w: World, id: nat, actor: Actor, o: RepairOracle): (out: (World, Option<Error>))
    requires w.db.Valid()
    ensures out.0.db.Valid()
  {
    if !Retryable(w.db, id) then (w, Some(Refusal(w.db, id)))
    else
      var (after, error) := Repair(w, id, o);
      var row := w.db.failures[id];
      var counted := row.(attemptCount := row.attemptCount + 1);
      var marked := if error.None? then counted.(status := Resolved, resolvedById := Some(actor.id)) else counted;
      (after.(db := FailureQueue.WithFailure(after.db, id, marked)), error)
  }

  function Abandon(w: World, id: nat, actor: Actor): (out: (World, Option<Error>))
    requires w.db.Valid()
    ensures out.0.db.Valid()
  {
    if !Retryable(w.db, id) then (w, Some(Refusal(w.db, id)))
    else
      var row := w.db.failures[id].(status := Abandoned, resolvedById := Some(actor.id));
      (w.(db := FailureQueue.WithFailure(w.db, id, row)), None)
  }

  function Reopen(w: World, id: nat): (out: (World, Option<Error>))
    requires w.db.Valid()
    ensures out.0.db.Valid()
  {
    if id >= |w.db.failures| then (w, Some(NotFound))
    else if w.db.failures[id].status != Abandoned then (w, Some(BadRequest))
    else
      var row := w.db.failures[id].(status := QueueOpen, resolvedById := None);
      (w.(db := FailureQueue.WithFailure(w.db, id, row)), None)
  }

  class Service {
    const db: Tables
    const vendors: Vendors

    constructor (db: Tables, vendors: Vendors)
      ensures this.db == db && this.vendors == vendors
    {
      this.db := db;
      this.vendors := vendors;
    }

    method RetryFailure(id: nat, actor: Actor, o: RepairOracle) returns (error: Option<Error>)
      requires db.State().Valid()
      modifies db, vendors
      ensures (WorldOf(db, vendors), error) == Retry(old(WorldOf(db, vendors)), id, actor, o)
    {
      hide Repair;
      if id >= |db.failures| {
        return Some(NotFound);
      }
      if db.failures[id].status == Resolved {
        return Some(BadRequest);
      }
      error := RunRepair(id, o);
      if error.Some? {
        FailureQueue.MarkAttemptFailed(db, id);
      } else {
        FailureQueue.MarkResolved(db, id, actor.id);
      }
    }

    /** Dispatch on the kind: each needs a different action, and one must never submit. */
    method RunRepair(id: FailureId, o: RepairOracle) returns (error: Option<Error>)
      requires db.State().Valid() && id < |db.failures|
      modifies db, vendors
      ensures (WorldOf(db, vendors), error) == Repair(old(WorldOf(db, vendors)), id, o)
    {
      hide WriteMirror, RepairedRow, RepairedLines, RepairSubmit, RepairMirror;
      var failure := db.failures[id];
      match failure.kind {
        case RequestSubmit => error := RunSubmitRepair(id, o);
        case RequestMirror => error := RunMirrorRepair(id, o.localWriteFails);
        case WorkNote =>
          var note := NoteReplay(failure);
          error := if note in o.accepted then None else Some(Unavailable);
        case TicketUpdate => error := ReplayTicketMove(failure, o);
        case Notification => error := ReplayMail(failure, o);
      }
    }

    method ReplayTicketMove(failure: Failure, o: RepairOracle) returns (error: Option<Error>)
      requires failure.kind == TicketUpdate
      ensures error == if Replays(failure, o) then None else Some(BadRequest)
    {
      var payload := ToBag(failure.payload);
      var transition := Get(payload, "transition");
      var sysId := ToText(Get(payload, "snTarget"));
      var note := ToText(Get(payload, "note"));
      if sysId == "" {
        return Some(BadRequest);
      }
      var target := if Get(payload, "targetKind") == Str("task") then Task(sysId) else Ritm(sysId);
      var call;
      if transition == Str("close") {
        call := CloseComplete(target, note);
      } else if transition == Str("hold") {
        call := MarkInProgress(target, note);
      } else {
        return Some(BadRequest);
      }
      return if call in o.accepted then None else Some(BadRequest);
    }

    method ReplayMail(failure: Failure, o: RepairOracle) returns (error: Option<Error>)
      requires failure.kind == Notification
      ensures error == if Replays(failure, o) then None else Some(BadRequest)
    {
      var payload := ToBag(failure.payload);
      var to := ToText(Get(payload, "to"));
      var template := ToText(Get(payload, "template"));
      if to == "" {
        return Some(BadRequest);
      }
      if template !in REPLAYABLE_TEMPLATES {
        return Some(BadRequest);
      }
      return if Send(to, template) in o.accepted then None else Some(BadRequest);
    }

    method RunSubmitRepair(id: FailureId, o: RepairOracle) returns (error: Option<Error>)
      requires db.State().Valid() && id < |db.failures|
      modifies db, vendors
      ensures var (after, result) := RepairSubmit(old(WorldOf(db, vendors)), id, o);
        WorldOf(db, vendors) == after && error == if result.Ok? then None else Some(result.error)
    {
      hide RepairedRow, RepairedLines;
      var payload := ToBag(db.failures[id].payload);
      if o.submit.SubmitThrows? {
        return Some(Unavailable);
      }
      vendors.tickets := vendors.tickets + [Ticket(o.submit.serviceNowSysId, ViaRetry(id), RepairOrder(payload))];
      var result := StoreRepairedMirror(payload, SubmittedRefs(o.submit), o.localWriteFails);
      return if result.Ok? then None else Some(result.error);
    }

    method RunMirrorRepair(id: FailureId, localWriteFails: bool) returns (error: Option<Error>)
      requires db.State().Valid() && id < |db.failures|
      modifies db
      ensures var (after, result) := RepairMirror(old(db.State()), id, localWriteFails);
        db.State() == after && error == if result.Ok? then None else Some(result.error)
    {
      hide RepairedRow, RepairedLines;
      var refs := RecordedRefs(db.failures[id].externalRef);
      if refs.serviceNowSysId == "" {
        return Some(BadRequest);
      }
      var result := StoreRepairedMirror(ToBag(db.failures[id].payload), refs, localWriteFails);
      return if result.Ok? then None else Some(result.error);
    }

    method StoreRepairedMirror(payload: map<string, Json>, refs: MirrorRefs, localWriteFails: bool) returns (result: Result<RequestId>)
      requires db.State().Valid()
      modifies db
      ensures (db.State(), result) == WriteMirror(old(db.State()), payload, refs, localWriteFails)
    {
      var opcoCode := ToText(Get(payload, "opcoCode"));
      if opcoCode !in db.catalogue.opcoByCode {
        return Err(BadRequest);
      }
      if refs.serviceNowSysId in db.requestBySysId {
        return Ok(db.requestBySysId[refs.serviceNowSysId]);
      }
      var lines := PayloadLines(payload);
      var resolved: seq<NewLine> := [];
      for i := 0 to |lines|
        invariant AllKnown(db.catalogue, lines[..i])
        invariant |resolved| == i
        invariant forall j :: 0 <= j < i ==> lines[j].skuId in db.catalogue.skuByGuid
        invariant forall j :: 0 <= j < i ==> resolved[j] == RepairedLine(db.catalogue, lines[j], refs, j)
      {
        var line := lines[i];
        if line.skuId !in db.catalogue.skuByGuid {
          return Err(BadRequest);
        }
        resolved := resolved + [RepairedLine(db.catalogue, line, refs, i)];
      }
      if localWriteFails {
        return Err(DatabaseError);
      }
      assert resolved == RepairedLines(db.catalogue, lines, refs);
      result := Ok(|db.requests|);
      IntakeService.StoreMirror(db, RepairedRow(payload, db.catalogue.opcoByCode[opcoCode], refs), resolved);
    }

    method AbandonFailure(id: nat, actor: Actor) returns (error: Option<Error>)
      requires db.State().Valid()
      modifies db
      ensures (WorldOf(db, vendors), error) == Abandon(old(WorldOf(db, vendors)), id, actor)
    {
      if id >= |db.failures| {
        return Some(NotFound);
      }
      if db.failures[id].status == Resolved {
        return Some(BadRequest);
      }
      FailureQueue.MarkAbandoned(db, id, actor.id);
      return None;
    }

    method ReopenFailure(id: nat) returns (error: Option<Error>)
      requires db.State().Valid()
      modifies db
      ensures (WorldOf(db, vendors), error) == Reopen(old(WorldOf(db, vendors)), id)
    {
      if id >= |db.failures| {
        return Some(NotFound);
      }
      if db.failures[id].status != Abandoned {
        return Some(BadRequest);
      }
      FailureQueue.Reopen(db, id);
      return None;
    }
  }
}
