/** What a retry, an abandon or a reopen does to the promises of QueueRows. */
module QueueDecisions {
  import opened Wrappers
  import opened Json
  import opened Stages
  import opened Database
  import opened Outside
  import opened History
  import opened QueueRows
  import FailureQueue
  import OutboundRetry

  /** The attempts made on a row; a row starts its life with one. */
  function Attempts(db: Db, id: FailureId): nat {
    if id < |db.failures| then db.failures[id].attemptCount else 1
  }

  /** The tickets a submit row has opened beyond the one its resolution stands for. */
  function Extra(w: World, id: FailureId): int {
    if id < |w.db.failures| && w.db.failures[id].kind == RequestSubmit then
      TicketsFor(w.tickets, id) - (if w.db.failures[id].status == Resolved then 1 else 0)
    else 0
  }

  /** A retry of a submit row that opened a ticket and then did not resolve the row. */
  predicate Orphaning(w: World, id: nat, o: OutboundRetry.RepairOracle)
    requires w.db.Valid()
  {
    && OutboundRetry.Retryable(w.db, id)
    && w.db.failures[id].kind == RequestSubmit
    && o.submit.Submitted?
    && OutboundRetry.Repair(w, id, o).1.Some?
  }

  /** A mirrorable payload fails to mirror exactly when the local write does. */
  lemma MirrorFailsExactlyWhen(db: Db, payload: Json, refs: OutboundRetry.MirrorRefs, writeFails: bool)
    requires db.Valid() && Mirrorable(db.catalogue, payload)
    ensures var (after, result) := OutboundRetry.WriteMirror(db, ToBag(payload), refs, writeFails);
      && (result.Err? <==> writeFails && refs.serviceNowSysId !in db.requestBySysId)
      && (result.Ok? ==> refs.serviceNowSysId in after.requestBySysId)
  {
    hide OutboundRetry.PayloadLines, OutboundRetry.RepairedLines;
  }

  /** On a sound queue, a retry opens a ticket nothing records exactly when it submits and
      the local write that follows fails. */
  lemma OrphansExactlyWhen(w: World, id: nat, o: OutboundRetry.RepairOracle)
    requires w.db.Valid() && QueueSound(w)
    ensures Orphaning(w, id, o) <==>
      && OutboundRetry.Retryable(w.db, id)
      && w.db.failures[id].kind == RequestSubmit
      && o.submit.Submitted? && o.localWriteFails && o.submit.serviceNowSysId !in w.db.requestBySysId
  {
    hide OutboundRetry.WriteMirror, Mirrorable;
    if OutboundRetry.Retryable(w.db, id) && w.db.failures[id].kind == RequestSubmit && o.submit.Submitted? {
      assert RowSound(w, id);
      MirrorFailsExactlyWhen(w.db, w.db.failures[id].payload, OutboundRetry.SubmittedRefs(o.submit), o.localWriteFails);
    }
  }

  /** What a row's fate may be: its contents never change, and a resolved row never moves again. */
  ghost predicate RowKept(before: Db, after: Db, id: FailureId) {
    id < |before.failures| ==>
      && id < |after.failures|
      && var was := before.failures[id]; var row := after.failures[id];
         && row.kind == was.kind && row.payload == was.payload && row.externalRef == was.externalRef && row.requestId == was.requestId
         && (was.status == Resolved ==> row == was)
  }

  /** The tickets a repair opens, and the row it mirrors. */
  lemma RepairOpensOnlyItsOwn(w: World, id: FailureId, o: OutboundRetry.RepairOracle)
    requires w.db.Valid() && QueueSound(w) && id < |w.db.failures|
    ensures var (after, error) := OutboundRetry.Repair(w, id, o); var row := w.db.failures[id];
      && after.db.failures == w.db.failures
      && (if row.kind == RequestSubmit && o.submit.Submitted?
          then after.tickets == w.tickets + [Ticket(o.submit.serviceNowSysId, ViaRetry(id), OutboundRetry.RepairOrder(ToBag(row.payload)))]
          else after.tickets == w.tickets)
      && (row.kind == RequestSubmit && error.None? ==> o.submit.Submitted? && o.submit.serviceNowSysId in after.db.requestBySysId)
      && (row.kind == RequestMirror && error.None? ==> RecordedSysId(row) in after.db.requestBySysId)
      && (error.None? ==> OutboundRetry.Replayable(row))
  {
    hide OutboundRetry.WriteMirror, OutboundRetry.RecordedRefs, Mirrorable;
    var row := w.db.failures[id];
    assert RowSound(w, id);
    if row.kind == RequestSubmit && o.submit.Submitted? {
      MirrorFailsExactlyWhen(w.db, row.payload, OutboundRetry.SubmittedRefs(o.submit), o.localWriteFails);
    }
    if row.kind == RequestMirror {
      MirrorMeansPresent(w.db, ToBag(row.payload), OutboundRetry.RecordedRefs(row.externalRef), o.localWriteFails);
    }
  }

  lemma MirrorMeansPresent(db: Db, payload: map<string, Json>, refs: OutboundRetry.MirrorRefs, writeFails: bool)
    requires db.Valid()
    ensures var (after, result) := OutboundRetry.WriteMirror(db, payload, refs, writeFails);
      result.Ok? ==> refs.serviceNowSysId in after.requestBySysId
  {
    hide OutboundRetry.PayloadLines, OutboundRetry.RepairedLines;
  }

  /** The state around one decided row: the other rows and their tickets are as they were. */
  ghost predicate Decided(w: World, after: World, id: FailureId)
    requires id < |w.db.failures|
  {
    && |after.db.failures| == |w.db.failures|
    && after.db.failures == w.db.failures[id := after.db.failures[id]]
    && (after.tickets == w.tickets ||
        (|after.tickets| == |w.tickets| + 1 && var t := after.tickets[|w.tickets|];
         after.tickets == w.tickets + [t] && t.via == ViaRetry(id) && w.db.failures[id].kind == RequestSubmit))
  }

  lemma OthersStaySound(w: World, after: World, id: FailureId, other: FailureId)
    requires id < |w.db.failures| && Decided(w, after, id) && QueueSound(w) && MirrorsStand(w.db, after.db)
    requires other < |w.db.failures| && other != id
    ensures RowSound(after, other) && TicketsFor(after.tickets, other) == TicketsFor(w.tickets, other)
  {
    hide Mirrorable, RecordedSysId;
    assert RowSound(w, other);
    if after.tickets != w.tickets {
      OneMoreTicket(w.tickets, after.tickets[|w.tickets|], other);
    }
    assert forall t :: t in w.tickets ==> t in after.tickets;
  }

  /** The decided row itself stays sound when a resolution is backed by a mirror. */
  lemma DecidedStaysSound(w: World, after: World, id: FailureId)
    requires id < |w.db.failures| && Decided(w, after, id) && QueueSound(w) && MirrorsStand(w.db, after.db)
    requires w.db.failures[id].status != Resolved && RowKept(w.db, after.db, id)
    requires var row := after.db.failures[id]; row.status == Resolved ==>
      && OutboundRetry.Replayable(row)
      && (row.kind == RequestMirror ==> RecordedSysId(row) in after.db.requestBySysId)
      && (row.kind == RequestSubmit ==> after.tickets != w.tickets && after.tickets[|w.tickets|].sysId in after.db.requestBySysId)
    ensures QueueSound(after)
  {
    hide Mirrorable;
    assert RowSound(w, id);
    forall other | 0 <= other < |after.db.failures| ensures RowSound(after, other) {
      if other != id {
        OthersStaySound(w, after, id, other);
      } else if after.tickets != w.tickets {
        assert after.tickets[|w.tickets|] in after.tickets;
      }
    }
  }

  /** An admitted retry, row by row: one more attempt, resolved exactly when the repair
      went through, and a ticket exactly when a submit row submitted. */
  lemma RetryDecides(w: World, id: nat, actor: Actor, o: OutboundRetry.RepairOracle)
    requires w.db.Valid() && QueueSound(w) && OutboundRetry.Retryable(w.db, id)
    ensures var after := OutboundRetry.Retry(w, id, actor, o).0;
      && Decided(w, after, id)
      && RowKept(w.db, after.db, id)
      && after.db.failures[id].attemptCount == w.db.failures[id].attemptCount + 1
      && (after.db.failures[id].status == Resolved <==> OutboundRetry.Repair(w, id, o).1.None?)
      && (after.tickets != w.tickets <==> w.db.failures[id].kind == RequestSubmit && o.submit.Submitted?)
      && after.db.requestBySysId == OutboundRetry.Repair(w, id, o).0.db.requestBySysId
      && after.tickets == OutboundRetry.Repair(w, id, o).0.tickets
  {
    RepairOpensOnlyItsOwn(w, id, o);
    hide OutboundRetry.Repair, QueueSound, Db.Valid;
  }

  lemma RetryKeepsQueueSound(w: World, id: nat, actor: Actor, o: OutboundRetry.RepairOracle)
    requires w.db.Valid() && QueueSound(w) && OutboundRetry.Retryable(w.db, id)
    requires MirrorsStand(w.db, OutboundRetry.Retry(w, id, actor, o).0.db)
    ensures QueueSound(OutboundRetry.Retry(w, id, actor, o).0)
  {
    RepairOpensOnlyItsOwn(w, id, o);
    RetryDecides(w, id, actor, o);
    hide OutboundRetry.Repair, OutboundRetry.Retry, QueueSound;
    DecidedStaysSound(w, OutboundRetry.Retry(w, id, actor, o).0, id);
  }

  lemma RetryCounts(w: World, id: nat, actor: Actor, o: OutboundRetry.RepairOracle, watched: FailureId)
    requires w.db.Valid() && QueueSound(w) && OutboundRetry.Retryable(w.db, id)
    requires MirrorsStand(w.db, OutboundRetry.Retry(w, id, actor, o).0.db)
    ensures var after := OutboundRetry.Retry(w, id, actor, o).0;
      && RowKept(w.db, after.db, watched)
      && Attempts(after.db, watched) == Attempts(w.db, watched) + (if id == watched then 1 else 0)
      && Extra(after, watched) == Extra(w, watched) + (if id == watched && Orphaning(w, id, o) then 1 else 0)
  {
    RepairOpensOnlyItsOwn(w, id, o);
    RetryDecides(w, id, actor, o);
    hide OutboundRetry.Repair, OutboundRetry.Retry, RowSound, MirrorsStand;
    var after := OutboundRetry.Retry(w, id, actor, o).0;
    if watched < |w.db.failures| && watched != id {
      OthersStaySound(w, after, id, watched);
    } else if watched == id && after.tickets != w.tickets {
      OneMoreTicket(w.tickets, after.tickets[|w.tickets|], id);
    }
  }

  lemma AbandonKeepsQueue(w: World, id: nat, actor: Actor, watched: FailureId)
    requires w.db.Valid() && QueueSound(w)
    ensures var after := OutboundRetry.Abandon(w, id, actor).0;
      && QueueSound(after) && RowKept(w.db, after.db, watched)
      && Attempts(after.db, watched) == Attempts(w.db, watched) && Extra(after, watched) == Extra(w, watched)
  {
    hide QueueSound, Db.Valid;
    var after := OutboundRetry.Abandon(w, id, actor).0;
    if OutboundRetry.Retryable(w.db, id) {
      DecidedStaysSound(w, after, id);
    }
  }

  lemma ReopenKeepsQueue(w: World, id: nat, watched: FailureId)
    requires w.db.Valid() && QueueSound(w)
    ensures var after := OutboundRetry.Reopen(w, id).0;
      && QueueSound(after) && RowKept(w.db, after.db, watched)
      && Attempts(after.db, watched) == Attempts(w.db, watched) && Extra(after, watched) == Extra(w, watched)
  {
    hide QueueSound, Db.Valid;
    var after := OutboundRetry.Reopen(w, id).0;
    if id < |w.db.failures| && w.db.failures[id].status == Abandoned {
      DecidedStaysSound(w, after, id);
    }
  }
}
