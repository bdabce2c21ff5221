/** The fulfilment services behind one door: any run of their methods is a run of the machine. */
module PlatformService {
  import opened Wrappers
  import opened Database
  import opened Outside
  import opened Platform
  import J = Json
  import Assign
  import FailureQueue
  import History
  import IntakeService
  import LicenceTicket
  import OutboundRequest
  import OutboundRetry
  import PlatformHistory
  import RequestService
  import StageService
  import SyncGates

  class Service {
    const db: Tables
    const vendors: Vendors
    const stage: StageService.Service
    const requests: RequestService.Service
    const assign: Assign.Service
    const outbound: OutboundRequest.Service
    const retry: OutboundRetry.Service
    const adapter: LicenceTicket.Service

    constructor (db: Tables, vendors: Vendors)
      ensures this.db == db && this.vendors == vendors && Wired()
    {
      this.db, this.vendors := db, vendors;
      var stage := new StageService.Service(db);
      this.stage := stage;
      this.requests := new RequestService.Service(db, stage);
      this.assign := new Assign.Service(db, vendors);
      this.outbound := new OutboundRequest.Service(db, vendors);
      this.retry := new OutboundRetry.Service(db, vendors);
      this.adapter := new LicenceTicket.Service(db, vendors);
    }

    predicate Wired() {
      && stage.db == db && requests.db == db && requests.stage.db == db
      && assign.db == db && assign.vendors == vendors
      && outbound.db == db && outbound.vendors == vendors
      && retry.db == db && retry.vendors == vendors
      && adapter.db == db && adapter.vendors == vendors
    }

    function State(): World
      reads db, vendors
    {
      WorldOf(db, vendors)
    }

    /** The calls about a request and its lines. */
    method PerformOnRequests(c: Call)
      requires State().db.Valid() && Wired()
      requires c.FileRequest? || c.AddLine? || c.EditHeader? || c.RemoveLine? || c.AdvanceLine?
      modifies db
      ensures State() == Step(old(State()), c)
    {
      hide Db.Valid, RequestService.Intake, RequestService.AddLine, RequestService.UpdateHeader, RequestService.RemoveLine, StageService.Advance;
      match c {
        case FileRequest(dto, record, actor) => var _ := requests.IntakeRequest(dto, record, actor);
        case AddLine(r, dto, actor) => var _ := requests.AddLineItem(r, dto, actor);
        case EditHeader(r, patch, actor) => var _ := requests.UpdateRequestHeader(r, patch, actor);
        case RemoveLine(r, l, actor) => var _ := requests.RemoveLineItem(r, l, actor);
        case AdvanceLine(l, toStage, actor, now) => var _ := stage.AdvanceStage(l, toStage, actor, now);
      }
    }

    /** The calls that open a sync gate; a sweep only names a request it has just read. */
    method PerformOnGates(c: Call)
      requires State().db.Valid() && Wired()
      requires c.MarkSynced? || c.SweepAzure? || c.SweepServiceNowUser?
      modifies db
      ensures State() == Step(old(State()), c)
    {
      hide Db.Valid, SyncGates.OpenAzure, SyncGates.OpenServiceNowUser, SyncGates.MarkSynced;
      match c {
        case MarkSynced(r, actor, now) => var _ := SyncGates.MarkRequestSynced(db, r, actor, now);
        case SweepAzure(r, now) =>
          if r < |db.requests| {
            SyncGates.OpenSyncGate(db, r, now);
          }
        case SweepServiceNowUser(r, userSysId, now) =>
          if r < |db.requests| {
            SyncGates.OpenServiceNowUserGate(db, r, userSysId, now);
          }
      }
    }

    /** The calls that reach ServiceNow, and the queue behind them. */
    method PerformOnTickets(c: Call)
      requires State().db.Valid() && Wired()
      requires c.PushRequest? || c.PushFlat? || c.CreateOutbound? || c.RetryFailure? || c.QueueNotification? || c.AbandonFailure? || c.ReopenFailure?
      modifies db, vendors
      ensures State() == Step(old(State()), c)
    {
      hide Db.Valid, IntakeService.Intake, LicenceTicket.IntakeFlat, OutboundRequest.Create, OutboundRetry.Retry, OutboundRetry.Abandon,
           OutboundRetry.Reopen, FailureQueue.Recorded;
      match c {
        case PushRequest(dto, writeFails) => var _ := IntakeService.IntakeRequest(db, dto, writeFails);
        case PushFlat(dto, sku, req, writeFails, submit, ticketWriteFails) =>
          var _ := adapter.IntakeFlatRequest(dto, sku, req, writeFails, submit, ticketWriteFails);
        case CreateOutbound(dto, actor, submit, writeFails) => var _ := outbound.CreateRequest(dto, actor, submit, writeFails);
        case RetryFailure(id, actor, repair) => var _ := retry.RetryFailure(id, actor, repair);
        case QueueNotification(to, template) =>
          FailureQueue.Record(db, Notification, J.Obj(map["to" := J.Str(to), "template" := J.Str(template)]), J.Undefined, None);
        case AbandonFailure(id, actor) => var _ := retry.AbandonFailure(id, actor);
        case ReopenFailure(id) => var _ := retry.ReopenFailure(id);
      }
    }

    /** Any call, made on the services, is that call's step. */
    method Perform(c: Call)
      requires State().db.Valid() && Wired()
      modifies db, vendors
      ensures State() == Step(old(State()), c)
    {
      hide Db.Valid, Assign.Outcome;
      match c {
        case AssignLine(call, answers) => var _ := assign.AssignLineItem(call, answers);
        case FileRequest(_, _, _) => PerformOnRequests(c);
        case AddLine(_, _, _) => PerformOnRequests(c);
        case EditHeader(_, _, _) => PerformOnRequests(c);
        case RemoveLine(_, _, _) => PerformOnRequests(c);
        case AdvanceLine(_, _, _, _) => PerformOnRequests(c);
        case MarkSynced(_, _, _) => PerformOnGates(c);
        case SweepAzure(_, _) => PerformOnGates(c);
        case SweepServiceNowUser(_, _, _) => PerformOnGates(c);
        case _ => PerformOnTickets(c);
      }
    }

    /** Any sequence of calls on the services is a run: what holds over runs holds of the objects. */
    method PerformAll(calls: seq<Call>)
      requires State().db.Valid() && Wired() && History.Sound(State().db)
      modifies db, vendors
      ensures State() == Run(old(State()), calls)
      ensures History.Sound(State().db) && History.Evolves(old(State().db), State().db)
    {
      hide Step, Db.Valid, History.Sound, History.Evolves;
      ghost var start := State();
      for i := 0 to |calls|
        invariant State().db.Valid()
        invariant State() == Run(start, calls[..i])
      {
        Platform.OneMoreCall(start, calls[..i], calls[i]);
        assert calls[..i + 1] == calls[..i] + [calls[i]];
        Perform(calls[i]);
      }
      assert calls[..|calls|] == calls;
      PlatformHistory.RunKeeps(start, calls);
    }
  }
}
