/**
  Every ServiceNow ticket opened for one request, by pushes and by retries of its own
  queued submissions: how many there are, and exactly which calls open one.
 */
module LicenceLaws {
  import opened Wrappers
  import opened Stages
  import opened Database
  import opened Outside
  import opened History
  import opened LicenceAccounting
  import opened Platform
  import LicenceHistory
  import LicenceRepair
  import LicenceTicket
  import FailureQueue
  import IntakeService
  import OutboundRequest
  import OutboundRetry
  import PlatformHistory
  import QueueDecisions
  import QueueHistory
  import QueueRows

  /** The ticket was opened by retrying a queue row that belongs to `r`. */
  predicate RetriedFor(t: Ticket, failures: seq<Failure>, r: RequestId) {
    t.via.ViaRetry? && t.via.row < |failures| && failures[t.via.row].requestId == Some(r)
  }

  function Retried(tickets: seq<Ticket>, failures: seq<Failure>, r: RequestId): nat {
    if tickets == [] then 0
    else Retried(tickets[..|tickets| - 1], failures, r) + (if RetriedFor(tickets[|tickets| - 1], failures, r) then 1 else 0)
  }

  /** All the tickets ever opened for a request. */
  function TicketsOf(w: World, r: RequestId): nat {
    Raised(w.tickets, r) + Retried(w.tickets, w.db.failures, r)
  }

  lemma OneMoreRetried(tickets: seq<Ticket>, t: Ticket, failures: seq<Failure>, r: RequestId)
    ensures Retried(tickets + [t], failures, r) == Retried(tickets, failures, r) + (if RetriedFor(t, failures, r) then 1 else 0)
  {
    assert (tickets + [t])[..|tickets|] == tickets;
  }

  /** Queue rows may be added, and rewritten as long as they keep their request. */
  lemma {:induction false} RetriedFrame(tickets: seq<Ticket>, before: seq<Failure>, after: seq<Failure>, r: RequestId)
    requires |before| <= |after|
    requires forall i :: 0 <= i < |before| ==> after[i].requestId == before[i].requestId
    requires forall t :: t in tickets && t.via.ViaRetry? ==> t.via.row < |before|
    ensures Retried(tickets, after, r) == Retried(tickets, before, r)
  {
    if tickets != [] {
      assert tickets[|tickets| - 1] in tickets;
      RetriedFrame(tickets[..|tickets| - 1], before, after, r);
    }
  }

  lemma {:induction false} NobodysRetries(tickets: seq<Ticket>, failures: seq<Failure>, r: RequestId)
    requires forall i :: 0 <= i < |failures| ==> failures[i].requestId != Some(r)
    ensures Retried(tickets, failures, r) == 0
  {
    if tickets != [] {
      NobodysRetries(tickets[..|tickets| - 1], failures, r);
    }
  }

  // ── which calls open a ticket ──

  /** The tables after the mirroring half of a flat push, and the request it is about. */
  function Mirrored(w: World, c: Call): Option<(Db, RequestId)>
    requires w.db.Valid() && c.PushFlat?
  {
    if !LicenceTicket.ActiveOpco(w.db.catalogue, c.flatDto.opcoCode) || !c.req.ReqFound? then None
    else
      var canonical := LicenceTicket.Canonical(w.db.catalogue, c.flatDto, c.defaultSkuId, c.req.sysId);
      var (db, created) := IntakeService.Intake(w.db, canonical, c.writeFails);
      if created.Ok? then Some((db, created.value)) else None
  }

  /** A push submits for `r`: it is about `r`, which has lines and no RITM yet. */
  predicate PushOpens(w: World, c: Call, r: RequestId)
    requires w.db.Valid()
  {
    c.PushFlat? && c.submit.Submitted? && Mirrored(w, c).Some? &&
    var (db, target) := Mirrored(w, c).value;
    target == r && (exists l :: l in db.lines && db.lines[l].requestId == r) && !LicenceTicket.HasRitm(db.lines, r)
  }

  /** A retry submits for `r`: it is of a row of `r` whose submission had failed and is not made good yet. */
  predicate RetryOpens(w: World, c: Call, r: RequestId) {
    && c.RetryFailure? && OutboundRetry.Retryable(w.db, c.failureId)
    && w.db.failures[c.failureId].kind == RequestSubmit && w.db.failures[c.failureId].requestId == Some(r)
    && c.repair.submit.Submitted?
  }

  /** The queue is sound, and its rows and the licence tickets speak of requests that exist. */
  ghost predicate Booked(w: World) {
    && QueueHistory.Kept(w) && LicenceHistory.Unborn(w)
    && forall i :: 0 <= i < |w.db.failures| && w.db.failures[i].requestId.Some? ==> w.db.failures[i].requestId.value < |w.db.requests|
  }

  lemma GrowthRetriesNothing(w: World, after: World, r: RequestId)
    requires QueueRows.QueueSound(w) && QueueRows.QueueGrows(w, after)
    ensures Retried(after.tickets, after.db.failures, r) == Retried(w.tickets, w.db.failures, r)
  {
    hide QueueRows.RowSound, QueueRows.Mirrorable, QueueRows.RecordedSysId;
    RetriedFrame(w.tickets, w.db.failures, after.db.failures, r);
    if after.tickets != w.tickets {
      OneMoreRetried(w.tickets, after.tickets[|w.tickets|], after.db.failures, r);
    }
  }

  lemma RetryRetries(w: World, id: nat, actor: Actor, o: OutboundRetry.RepairOracle, r: RequestId)
    requires w.db.Valid() && QueueRows.QueueSound(w)
    ensures var after := OutboundRetry.Retry(w, id, actor, o).0;
      Retried(after.tickets, after.db.failures, r) == Retried(w.tickets, w.db.failures, r) +
        (if RetryOpens(w, RetryFailure(id, actor, o), r) then 1 else 0)
  {
    hide QueueRows.RowSound, OutboundRetry.Repair, Db.Valid;
    if OutboundRetry.Retryable(w.db, id) {
      var after := OutboundRetry.Retry(w, id, actor, o).0;
      QueueDecisions.RetryDecides(w, id, actor, o);
      RetriedFrame(w.tickets, w.db.failures, after.db.failures, r);
      if after.tickets != w.tickets {
        OneMoreRetried(w.tickets, after.tickets[|w.tickets|], after.db.failures, r);
      }
    }
  }

  lemma DecisionsRetry(w: World, c: Call, r: RequestId)
    requires w.db.Valid() && QueueRows.QueueSound(w) && QueueHistory.QueueDecision(c)
    ensures var after := Step(w, c);
      Retried(after.tickets, after.db.failures, r) == Retried(w.tickets, w.db.failures, r) + (if RetryOpens(w, c, r) then 1 else 0)
  {
    hide OutboundRetry.Retry, QueueRows.RowSound, Db.Valid;
    if c.RetryFailure? {
      RetryRetries(w, c.failureId, c.actor, c.repair, r);
    } else {
      RetriedFrame(w.tickets, w.db.failures, Step(w, c).db.failures, r);
    }
  }

  /** Only retries of `r`'s own submit rows open retried tickets for it. */
  lemma StepRetries(w: World, c: Call, r: RequestId)
    requires QueueHistory.Kept(w)
    ensures var after := Step(w, c);
      Retried(after.tickets, after.db.failures, r) == Retried(w.tickets, w.db.failures, r) + (if RetryOpens(w, c, r) then 1 else 0)
  {
    hide Step, Sound;
    KeptIsValid(w);
    if QueueHistory.QueueDecision(c) {
      DecisionsRetry(w, c, r);
    } else {
      QueueHistory.OtherCallsGrowTheQueue(w, c);
      GrowthRetriesNothing(w, Step(w, c), r);
    }
  }

  lemma KeptIsValid(w: World)
    requires QueueHistory.Kept(w)
    ensures w.db.Valid()
  {
  }

  /** Only a push of `r` raises a licence ticket for it. */
  lemma PushRaises(w: World, c: Call, r: RequestId)
    requires w.db.Valid() && c.PushFlat?
    ensures Raised(Step(w, c).tickets, r) == Raised(w.tickets, r) + (if PushOpens(w, c, r) then 1 else 0)
  {
    hide IntakeService.Intake, LicenceTicket.Raise, LicenceTicket.HasRitm, LicenceTicket.Canonical, LicenceTicket.ActiveOpco, Raised;
    if Mirrored(w, c).Some? {
      var canonical := LicenceTicket.Canonical(w.db.catalogue, c.flatDto, c.defaultSkuId, c.req.sysId);
      var (db, target) := Mirrored(w, c).value;
      if target == r {
        LicenceRepair.RaiseTicketsExactlyWhen(w.(db := db), target, canonical, c.req.openedBySysId, c.submit, c.ticketWriteFails);
      } else {
        RaiseIsPrivate(w.(db := db), target, canonical, c.req.openedBySysId, c.submit, c.ticketWriteFails, r);
      }
    }
  }

  /** A call opens a ticket for `r` if and only if it is a push of `r` that finds lines and no
      RITM, or a retry of one of `r`'s unresolved submit rows, and the submission goes through. */
  lemma StepOpensExactlyWhen(w: World, c: Call, r: RequestId)
    requires w.db.Valid() && QueueHistory.Kept(w)
    ensures TicketsOf(Step(w, c), r) == TicketsOf(w, r) + (if PushOpens(w, c, r) || RetryOpens(w, c, r) then 1 else 0)
  {
    StepRetries(w, c, r);
    hide Step, PushOpens, RetryOpens, Raised, Retried;
    if c.PushFlat? {
      PushRaises(w, c, r);
      OnlyRetriesRetry(w, c, r);
    } else {
      LicenceHistory.OtherCallsKeepBooks(w, c);
      OnlyPushesPush(w, c, r);
    }
  }

  lemma OnlyRetriesRetry(w: World, c: Call, r: RequestId)
    ensures RetryOpens(w, c, r) ==> c.RetryFailure?
  {
  }

  lemma OnlyPushesPush(w: World, c: Call, r: RequestId)
    requires w.db.Valid()
    ensures PushOpens(w, c, r) ==> c.PushFlat?
  {
    hide Mirrored;
  }

  // ── over runs ──

  lemma StepStaysBooked(w: World, c: Call)
    requires Booked(w) && (c.PushFlat? ==> NamesItems(c.submit))
    ensures Booked(Step(w, c))
  {
    KeptIsValid(w);
    QueueHistory.StepKeepsQueue(w, c, 0);
    UnbornStays(w, c);
    RowsStayBooked(w, c);
    hide Step, QueueHistory.Kept, LicenceHistory.Unborn;
  }

  lemma UnbornStays(w: World, c: Call)
    requires Sound(w.db) && LicenceHistory.Unborn(w) && (c.PushFlat? ==> NamesItems(c.submit))
    ensures LicenceHistory.Unborn(Step(w, c))
  {
    assert w.db.Valid();
    hide Step, Sound;
    if c.PushFlat? {
      LicenceHistory.FlatPushAccounts(w, c, |w.db.requests| + |Step(w, c).db.requests|);
    } else {
      PlatformHistory.StepKeeps(w, c);
      LicenceHistory.OtherCallsKeepBooks(w, c);
    }
  }

  lemma RowsStayBooked(w: World, c: Call)
    requires Booked(w)
    ensures forall i :: 0 <= i < |Step(w, c).db.failures| && Step(w, c).db.failures[i].requestId.Some? ==>
      Step(w, c).db.failures[i].requestId.value < |Step(w, c).db.requests|
  {
    KeptIsValid(w);
    assert Sound(w.db);
    hide Step, QueueRows.QueueSound, QueueRows.QueueGrows, Sound, LicenceHistory.Unborn, Db.Valid;
    PlatformHistory.StepKeeps(w, c);
    if QueueHistory.QueueDecision(c) {
      LicenceHistory.DecisionsWriteOneRow(w, c);
    } else {
      QueueHistory.OtherCallsGrowTheQueue(w, c);
      GrowthStaysBooked(w, Step(w, c));
    }
  }

  lemma GrowthStaysBooked(w: World, after: World)
    requires QueueRows.QueueGrows(w, after) && |w.db.requests| <= |after.db.requests|
    requires forall i :: 0 <= i < |w.db.failures| && w.db.failures[i].requestId.Some? ==> w.db.failures[i].requestId.value < |w.db.requests|
    ensures forall i :: 0 <= i < |after.db.failures| && after.db.failures[i].requestId.Some? ==>
      after.db.failures[i].requestId.value < |after.db.requests|
  {
    hide QueueRows.Mirrorable, QueueRows.RecordedSysId;
  }

  /** The submissions that retries of `r`'s own submit rows made in a run. */
  function SubmittedRetries(w: World, calls: seq<Call>, r: RequestId): nat
    requires w.db.Valid()
    decreases |calls|
  {
    if calls == [] then 0
    else (if RetryOpens(w, calls[0], r) then 1 else 0) + SubmittedRetries(Step(w, calls[0]), calls[1..], r)
  }

  lemma {:induction false} RunRetries(w: World, calls: seq<Call>, r: RequestId)
    requires w.db.Valid() && QueueHistory.Kept(w)
    ensures var after := Run(w, calls);
      Retried(after.tickets, after.db.failures, r) == Retried(w.tickets, w.db.failures, r) + SubmittedRetries(w, calls, r)
    decreases |calls|
  {
    hide Step, QueueHistory.Kept, RetryOpens, Retried, Db.Valid;
    if calls != [] {
      QueueHistory.StepKeepsQueue(w, calls[0], 0);
      StepRetries(w, calls[0], r);
      RunRetries(Step(w, calls[0]), calls[1..], r);
    }
  }

  /** Every ticket opened for a request is on its lines, or in the queue as unwritten, or was
      submitted by retrying one of the request's own queued submissions. */
  ghost predicate Balances(start: World, calls: seq<Call>, r: RequestId)
    requires start.db.Valid()
  {
    var after := Run(start, calls);
    TicketsOf(after, r) ==
      (if LicenceTicket.HasRitm(after.db.lines, r) then 1 else 0) + Unwritten(after.db.failures, r) + SubmittedRetries(start, calls, r)
  }

  /** Full balance: for a request the flat intake creates, from its first push on and over every
      run of every call, retries of its own rows included. */
  lemma FlatRequestsBalance(w: World, push: Call, calls: seq<Call>)
    requires w.db.Valid() && Booked(w) && push.PushFlat? && LicenceHistory.NamesItemsIn([push] + calls)
    requires |w.db.requests| < |Step(w, push).db.requests|
    ensures Balances(Step(w, push), calls, |w.db.requests|)
  {
    var r := |w.db.requests|;
    hide Step, QueueHistory.Kept, LicenceHistory.Unborn, Run;
    BookedIsSound(w);
    LicenceHistory.FlatRequestsAlwaysAccounted(w, push, calls);
    QueueHistory.StepKeepsQueue(w, push, 0);
    RunRetries(Step(w, push), calls, r);
    StepRetries(w, push, r);
    NobodysRetries(w.tickets, w.db.failures, r);
    OnlyRetriesRetry(w, push, r);
  }

  lemma BookedIsSound(w: World)
    requires Booked(w)
    ensures Sound(w.db) && LicenceHistory.Unborn(w) && QueueHistory.Kept(w)
  {
  }

  lemma {:induction false} RunStaysBooked(w: World, calls: seq<Call>)
    requires w.db.Valid() && Booked(w) && LicenceHistory.NamesItemsIn(calls)
    ensures Booked(Run(w, calls))
    decreases |calls|
  {
    hide Step, Booked, Db.Valid;
    if calls != [] {
      StepStaysBooked(w, calls[0]);
      RunStaysBooked(Step(w, calls[0]), calls[1..]);
    }
  }

  /** The `n`-th call of a run is a flat push that creates a request. */
  ghost predicate Creates(w: World, calls: seq<Call>, n: nat)
    requires w.db.Valid() && n < |calls|
  {
    calls[n].PushFlat? && |Run(w, calls[..n]).db.requests| < |Run(w, calls[..n + 1]).db.requests|
  }

  /** The books of a request created by the `n`-th call balance at the end of the run. */
  ghost predicate BalancesFrom(w: World, calls: seq<Call>, n: nat)
    requires w.db.Valid() && n < |calls|
  {
    Balances(Run(w, calls[..n + 1]), calls[n + 1..], |Run(w, calls[..n]).db.requests|)
  }

  lemma RunBalancesFrom(w: World, calls: seq<Call>, n: nat)
    requires w.db.Valid() && Booked(w) && LicenceHistory.NamesItemsIn(calls) && n < |calls| && Creates(w, calls, n)
    ensures BalancesFrom(w, calls, n)
  {
    hide Step, Run, Booked, Balances, Db.Valid, NamesItems;
    var before := Run(w, calls[..n]);
    RunStaysBooked(w, calls[..n]);
    assert calls[..n + 1] == calls[..n] + [calls[n]];
    Platform.OneMoreCall(w, calls[..n], calls[n]);
    assert [calls[n]] + calls[n + 1..] == calls[n..];
    FlatRequestsBalance(before, calls[n], calls[n + 1..]);
  }

  /** So a request has more than one ticket if and only if more than one of these was counted. */
  lemma SecondTicketExactlyWhen(w: World, push: Call, calls: seq<Call>)
    requires w.db.Valid() && Booked(w) && push.PushFlat? && LicenceHistory.NamesItemsIn([push] + calls)
    requires |w.db.requests| < |Step(w, push).db.requests|
    ensures var r := |w.db.requests|; var start := Step(w, push); var after := Run(start, calls);
      TicketsOf(after, r) > 1 <==>
        Unwritten(after.db.failures, r) + SubmittedRetries(start, calls, r) > (if LicenceTicket.HasRitm(after.db.lines, r) then 0 else 1)
  {
    FlatRequestsBalance(w, push, calls);
    hide Step, Run, TicketsOf, Unwritten, SubmittedRetries, LicenceTicket.HasRitm;
  }

  /** The guard does not see queued submissions: a push whose submission fails, a push that goes
      through, and a retry of the first push's row open two tickets for one request. */
  lemma RetryAfterRepushOpensASecond(w: World, r: RequestId, dto: IntakeService.IntakeDto, requesterSysId: string,
                                     outcome: SubmitOutcome, writeFails: bool, actor: Actor, o: OutboundRetry.RepairOracle)
    requires w.db.Valid() && QueueRows.QueueSound(w) && r < |w.db.requests| && dto.opcoCode in w.db.catalogue.opcoByCode
    requires (exists l :: l in w.db.lines && w.db.lines[l].requestId == r) && !LicenceTicket.HasRitm(w.db.lines, r)
    requires outcome.Submitted? && o.submit.Submitted?
    ensures var failed := LicenceTicket.Raise(w, r, dto, requesterSysId, SubmitThrows, false);
      var pushed := LicenceTicket.Raise(failed, r, dto, requesterSysId, outcome, writeFails);
      TicketsOf(OutboundRetry.Retry(pushed, |w.db.failures|, actor, o).0, r) == TicketsOf(w, r) + 2
  {
    var id := |w.db.failures|;
    var failed := LicenceTicket.Raise(w, r, dto, requesterSysId, SubmitThrows, false);
    var pushed := LicenceTicket.Raise(failed, r, dto, requesterSysId, outcome, writeFails);
    FailedRaiseQueues(w, r, dto, requesterSysId);
    RaiseKeepsTheQueue(w, r, dto, requesterSysId, SubmitThrows, false, r);
    RaiseKeepsTheQueue(failed, r, dto, requesterSysId, outcome, writeFails, r);
    LicenceRepair.RaiseTicketsExactlyWhen(w, r, dto, requesterSysId, SubmitThrows, false);
    LicenceRepair.RaiseTicketsExactlyWhen(failed, r, dto, requesterSysId, outcome, writeFails);
    hide LicenceTicket.Raise, LicenceTicket.HasRitm, QueueRows.QueueSound;
    RetryRetries(pushed, id, actor, o, r);
    hide Retried;
    RetryRaisesNothing(pushed, id, actor, o, r);
  }

  lemma FailedRaiseQueues(w: World, r: RequestId, dto: IntakeService.IntakeDto, requesterSysId: string)
    requires w.db.Valid() && r < |w.db.requests|
    requires (exists l :: l in w.db.lines && w.db.lines[l].requestId == r) && !LicenceTicket.HasRitm(w.db.lines, r)
    ensures var failed := LicenceTicket.Raise(w, r, dto, requesterSysId, SubmitThrows, false); var id := |w.db.failures|;
      && failed.db == w.db.(failures := failed.db.failures) && |failed.db.failures| == id + 1
      && failed.db.failures[id].kind == RequestSubmit && failed.db.failures[id].requestId == Some(r)
      && failed.db.failures[id].status == QueueOpen
  {
    var ids := LicenceTicket.LineIds(w.db.lines, r, w.db.nextLine);
    LicenceTicket.LineIdsAreTheLines(w.db.lines, r, w.db.nextLine);
    var l :| l in w.db.lines && w.db.lines[l].requestId == r;
    assert l in ids;
    hide LicenceTicket.LineIds, LicenceTicket.Payload, FailureQueue.PickedPayload, FailureQueue.PickedExternalRef, LicenceTicket.Ticketed;
  }

  lemma RaiseKeepsTheQueue(w: World, r: RequestId, dto: IntakeService.IntakeDto, requesterSysId: string, outcome: SubmitOutcome, writeFails: bool, q: RequestId)
    requires w.db.Valid() && QueueRows.QueueSound(w) && r < |w.db.requests| && dto.opcoCode in w.db.catalogue.opcoByCode
    ensures var after := LicenceTicket.Raise(w, r, dto, requesterSysId, outcome, writeFails);
      && QueueRows.QueueSound(after) && w.db.failures <= after.db.failures
      && Retried(after.tickets, after.db.failures, q) == Retried(w.tickets, w.db.failures, q)
  {
    var after := LicenceTicket.Raise(w, r, dto, requesterSysId, outcome, writeFails);
    QueueRows.RaiseGrowsTheQueue(w, r, dto, requesterSysId, outcome, writeFails);
    RaiseKeepsMirrors(w, r, dto, requesterSysId, outcome, writeFails);
    hide LicenceTicket.Raise, QueueRows.RowSound;
    QueueRows.GrowthKeepsQueueSound(w, after);
    GrowthRetriesNothing(w, after, q);
  }

  lemma RaiseKeepsMirrors(w: World, r: RequestId, dto: IntakeService.IntakeDto, requesterSysId: string, outcome: SubmitOutcome, writeFails: bool)
    requires w.db.Valid() && r < |w.db.requests|
    ensures QueueRows.MirrorsStand(w.db, LicenceTicket.Raise(w, r, dto, requesterSysId, outcome, writeFails).db)
  {
    hide LicenceTicket.LineIds, LicenceTicket.Payload, FailureQueue.NewFailure, LicenceTicket.Ticketed, LicenceTicket.HasRitm,
         OutboundRequest.TicketRef, Db.Valid;
  }

  lemma RetryRaisesNothing(w: World, id: nat, actor: Actor, o: OutboundRetry.RepairOracle, r: RequestId)
    requires w.db.Valid()
    ensures Raised(OutboundRetry.Retry(w, id, actor, o).0.tickets, r) == Raised(w.tickets, r)
  {
    hide OutboundRetry.Repair;
    if OutboundRetry.Retryable(w.db, id) {
      LicenceHistory.RepairKeepsRitms(w, id, o);
      var after := OutboundRetry.Retry(w, id, actor, o).0;
      if after.tickets != w.tickets {
        OneMoreRaised(w.tickets, after.tickets[|w.tickets|], r);
      }
    }
  }
}
