/** The on-demand sync check and its cooldown map (apps/api/src/fulfilment/sync-check.service.ts). */
module SyncCheck {
  import opened Wrappers
  import opened Database
  import SyncGates

  const COOLDOWN_SECONDS: int := 30
  const COOLDOWN_MS: int := COOLDOWN_SECONDS * 1000

  type Stamps = map<RequestId, Time>

  /** Whole seconds of cooldown left, rounded up; 0 when a check is due. */
  function Remaining(stamps: Stamps, r: RequestId, now: Time): int {
    if r !in stamps || now - stamps[r] >= COOLDOWN_MS then 0
    else (COOLDOWN_MS - (now - stamps[r]) + 999) / 1000
  }

  function Pruned(stamps: Stamps, now: Time): Stamps {
    map r | r in stamps && now - stamps[r] < COOLDOWN_MS :: stamps[r]
  }

  /** What the directory answers. */
  datatype Lookup = LookupThrows | NotThere | There

  datatype Answer = Found | Throttled(retryAfterSeconds: int) | NotFoundYet(retryAfterSeconds: int) | Failed(error: Error)

  // ── the cooldown as a machine ──

  /** One check that gets as far as the cooldown. */
  datatype Ask = Ask(requestId: RequestId, now: Time)

  /** The stamp map afterwards, and the seconds the caller is told to wait. */
  function Pruning(stamps: Stamps, a: Ask): (Stamps, int) {
    var remaining := Remaining(stamps, a.requestId, a.now);
    var kept := Pruned(stamps, a.now);
    (if remaining > 0 then kept else kept[a.requestId := a.now], remaining)
  }

  function StampsAfter(stamps: Stamps, asks: seq<Ask>): Stamps
    decreases |asks|
  {
    if asks == [] then stamps else StampsAfter(Pruning(stamps, asks[0]).0, asks[1..])
  }

  /** The checks that reached the vendor. */
  function VendorCalls(stamps: Stamps, asks: seq<Ask>): seq<Ask>
    decreases |asks|
  {
    if asks == [] then []
    else (if Pruning(stamps, asks[0]).1 > 0 then [] else [asks[0]]) + VendorCalls(Pruning(stamps, asks[0]).0, asks[1..])
  }

  lemma {:induction false} OneMoreAsk(stamps: Stamps, asks: seq<Ask>, a: Ask)
    ensures StampsAfter(stamps, asks + [a]) == Pruning(StampsAfter(stamps, asks), a).0
    ensures VendorCalls(stamps, asks + [a]) ==
      VendorCalls(stamps, asks) + (if Pruning(StampsAfter(stamps, asks), a).1 > 0 then [] else [a])
    decreases |asks|
  {
    if asks == [] {
      assert [a][1..] == [] && asks + [a] == [a];
    } else {
      assert (asks + [a])[1..] == asks[1..] + [a];
      OneMoreAsk(Pruning(stamps, asks[0]).0, asks[1..], a);
    }
  }

  /** Why a check never gets to the cooldown, or that it does. */
  function Stopped(db: Db, r: nat, actor: Actor): Option<Answer> {
    if r >= |db.requests| then Some(Failed(NotFound))
    else if !InScope(actor, db.requests[r].opcoId) then Some(Failed(Forbidden))
    else if db.requests[r].azureSyncedAt.Some? then Some(Found)
    else None
  }

  function AnswerTo(lookup: Lookup): Answer {
    match lookup
    case LookupThrows => Failed(Unavailable)
    case NotThere => NotFoundYet(COOLDOWN_SECONDS)
    case There => Found
  }

  class Service {
    const db: Tables
    var lastCheckedAt: Stamps
    ghost var history: seq<Ask>
    ghost var asked: seq<Ask>

    constructor (db: Tables)
      ensures this.db == db && lastCheckedAt == map[] && history == [] && Linked()
    {
      this.db := db;
      lastCheckedAt := map[];
      history, asked := [], [];
    }

    /** The map and the vendor calls are those of the cooldown machine on the checks so far. */
    ghost predicate Linked()
      reads this
    {
      lastCheckedAt == StampsAfter(map[], history) && asked == VendorCalls(map[], history)
    }

    /** Ask the directory, unless the gate is open or the request was asked about just now. */
    method Check(r: nat, actor: Actor, now: Time, lookup: Lookup) returns (answer: Answer)
      requires db.State().Valid() && Linked()
      modifies this, db
      ensures Linked()
      ensures var stopped := Stopped(old(db.State()), r, actor);
        if stopped.Some? then answer == stopped.value && history == old(history) && db.State() == old(db.State())
        else
          var remaining := Pruning(old(lastCheckedAt), Ask(r, now)).1;
          && history == old(history) + [Ask(r, now)]
          && answer == (if remaining > 0 then Throttled(remaining) else AnswerTo(lookup))
          && db.State() == if remaining <= 0 && lookup.There? then SyncGates.OpenAzure(old(db.State()), r, now) else old(db.State())
    {
      if r >= |db.requests| {
        return Failed(NotFound);
      }
      if !InScope(actor, db.requests[r].opcoId) {
        return Failed(Forbidden);
      }
      if db.requests[r].azureSyncedAt.Some? {
        return Found;
      }
      OneMoreAsk(map[], history, Ask(r, now));
      history := history + [Ask(r, now)];
      var remaining := CooldownRemaining(r, now);
      if remaining > 0 {
        return Throttled(remaining);
      }
      lastCheckedAt := lastCheckedAt[r := now];
      asked := asked + [Ask(r, now)];
      match lookup {
        case LookupThrows => return Failed(Unavailable);
        case NotThere => return NotFoundYet(COOLDOWN_SECONDS);
        case There =>
          SyncGates.OpenSyncGate(db, r, now);
          return Found;
      }
    }

    /** So the vendor is never asked twice about one request within thirty seconds. */
    lemma AskedApart()
      requires Linked() && InOrder(history)
      ensures Apart(asked)
    {
      VendorCallsAreApart(map[], history);
    }

    method CooldownRemaining(r: RequestId, now: Time) returns (remaining: int)
      modifies this`lastCheckedAt
      ensures lastCheckedAt == Pruned(old(lastCheckedAt), now)
      ensures remaining == Remaining(old(lastCheckedAt), r, now)
    {
      Prune(now);
      if r !in lastCheckedAt {
        return 0;
      }
      var elapsedMs := now - lastCheckedAt[r];
      if elapsedMs >= COOLDOWN_MS {
        return 0;
      }
      return (COOLDOWN_MS - elapsedMs + 999) / 1000;
    }

    method Prune(now: Time)
      modifies this`lastCheckedAt
      ensures lastCheckedAt == Pruned(old(lastCheckedAt), now)
    {
      var todo := lastCheckedAt.Keys;
      ghost var before := lastCheckedAt;
      while todo != {}
        invariant todo <= before.Keys
        invariant lastCheckedAt == map r | r in before && (r in todo || now - before[r] < COOLDOWN_MS) :: before[r]
        decreases todo
      {
        var r :| r in todo;
        if now - lastCheckedAt[r] >= COOLDOWN_MS {
          lastCheckedAt := lastCheckedAt - {r};
        }
        todo := todo - {r};
      }
    }
  }

  // ── against a map that is never pruned ──

  function Keeping(stamps: Stamps, a: Ask): (Stamps, int) {
    var remaining := Remaining(stamps, a.requestId, a.now);
    (if remaining > 0 then stamps else stamps[a.requestId := a.now], remaining)
  }

  function PruningAnswers(stamps: Stamps, asks: seq<Ask>): seq<int>
    decreases |asks|
  {
    if asks == [] then [] else [Pruning(stamps, asks[0]).1] + PruningAnswers(Pruning(stamps, asks[0]).0, asks[1..])
  }

  function KeepingAnswers(stamps: Stamps, asks: seq<Ask>): seq<int>
    decreases |asks|
  {
    if asks == [] then [] else [Keeping(stamps, asks[0]).1] + KeepingAnswers(Keeping(stamps, asks[0]).0, asks[1..])
  }

  predicate InOrder(asks: seq<Ask>) {
    forall i, j :: 0 <= i < j < |asks| ==> asks[i].now <= asks[j].now
  }

  /** The pruned map lost only stamps that no longer matter at `now`. */
  predicate Agrees(pruned: Stamps, kept: Stamps, now: Time) {
    && (forall r :: r in pruned ==> r in kept && kept[r] == pruned[r])
    && (forall r :: r in kept && now - kept[r] < COOLDOWN_MS ==> r in pruned)
  }

  /** Pruning is invisible: however checks of however many requests interleave, each is told
      what a map that never forgets would have told it. */
  lemma {:induction false} PruningIsInvisible(pruned: Stamps, kept: Stamps, asks: seq<Ask>, now: Time)
    requires InOrder(asks) && Agrees(pruned, kept, now) && (asks != [] ==> now <= asks[0].now)
    ensures PruningAnswers(pruned, asks) == KeepingAnswers(kept, asks)
    decreases |asks|
  {
    if asks != [] {
      var a := asks[0];
      assert Agrees(Pruning(pruned, a).0, Keeping(kept, a).0, a.now);
      PruningIsInvisible(Pruning(pruned, a).0, Keeping(kept, a).0, asks[1..], a.now);
    }
  }

  lemma {:induction false} CallsWaitForTheStamp(stamps: Stamps, asks: seq<Ask>)
    requires InOrder(asks)
    ensures forall i :: 0 <= i < |VendorCalls(stamps, asks)| ==>
      var call := VendorCalls(stamps, asks)[i];
      call in asks && (call.requestId in stamps ==> call.now >= stamps[call.requestId] + COOLDOWN_MS)
    decreases |asks|
  {
    if asks != [] {
      var after := Pruning(stamps, asks[0]).0;
      CallsWaitForTheStamp(after, asks[1..]);
      var later := VendorCalls(after, asks[1..]);
      forall i | 0 <= i < |later| && later[i].requestId in stamps
        ensures later[i].now >= stamps[later[i].requestId] + COOLDOWN_MS
      {
        assert later[i] in asks[1..];
        assert asks[0].now <= later[i].now;
      }
    }
  }

  predicate Apart(calls: seq<Ask>) {
    forall i, j :: 0 <= i < j < |calls| && calls[i].requestId == calls[j].requestId ==> calls[j].now >= calls[i].now + COOLDOWN_MS
  }

  lemma FirstStandsApart(first: Ask, later: seq<Ask>)
    requires Apart(later)
    requires forall j :: 0 <= j < |later| && later[j].requestId == first.requestId ==> later[j].now >= first.now + COOLDOWN_MS
    ensures Apart([first] + later)
  {
    var calls := [first] + later;
    forall i, j | 0 <= i < j < |calls| && calls[i].requestId == calls[j].requestId
      ensures calls[j].now >= calls[i].now + COOLDOWN_MS
    {
      assert calls[j] == later[j - 1];
      assert i > 0 ==> calls[i] == later[i - 1];
    }
  }

  /** Two vendor calls for one request are never less than thirty seconds apart. */
  lemma {:induction false} VendorCallsAreApart(stamps: Stamps, asks: seq<Ask>)
    requires InOrder(asks)
    ensures Apart(VendorCalls(stamps, asks))
    decreases |asks|
  {
    if asks != [] {
      var after := Pruning(stamps, asks[0]).0;
      VendorCallsAreApart(after, asks[1..]);
      CallsWaitForTheStamp(after, asks[1..]);
      var later := VendorCalls(after, asks[1..]);
      if Pruning(stamps, asks[0]).1 > 0 {
        assert VendorCalls(stamps, asks) == later;
      } else {
        assert asks[0].requestId in after && after[asks[0].requestId] == asks[0].now;
        FirstStandsApart(asks[0], later);
      }
    }
  }

  /** A throttled caller is told between 1 and 30 seconds, and waiting them out is enough. */
  lemma WaitingIsEnough(stamps: Stamps, r: RequestId, now: Time, later: Time)
    requires r in stamps ==> stamps[r] <= now
    requires Remaining(stamps, r, now) > 0 && later >= now + 1000 * Remaining(stamps, r, now)
    ensures 1 <= Remaining(stamps, r, now) <= 30
    ensures Remaining(stamps, r, later) == 0
  {
  }
}
