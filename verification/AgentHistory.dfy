/** What every reachable state of the agent tables satisfies. */
module AgentHistory {
  import opened Wrappers
  import opened Database
  import opened Outside
  import opened AgentRuns
  import opened AgentApproval
  import Assign

  /** A run has ended exactly when its status is terminal; a run that waits has a state to
      resume from; only an ended run is hidden. */
  predicate RunSound(run: AgentRun) {
    && (run.endedAt.Some? <==> Terminal(run.status))
    && (run.status == AwaitingApproval ==> run.runState.Some?)
    && (run.hiddenAt.Some? ==> Terminal(run.status))
  }

  /** A decision names its decider exactly when it has a time; a proposal nobody decided is
      pending or was dropped with its run. */
  predicate ProposalSound(p: Proposal) {
    && (p.decidedAt.Some? <==> p.approvedById.Some?)
    && (p.status == Pending ==> p.decidedAt.None?)
    && (p.status in {Executed, ProposalFailed} ==> p.decidedAt.Some?)
  }

  /** A run started from a request screen that is still open. */
  predicate OpenOn(run: AgentRun, requestId: RequestId) {
    run.requestId == Some(requestId) && run.conversationId.None? && !Terminal(run.status)
  }

  ghost predicate OneOpenRun(a: Agent) {
    forall r, other, q ::
      0 <= r < |a.runs| && 0 <= other < |a.runs| && OpenOn(a.runs[r], q) && OpenOn(a.runs[other], q) ==> r == other
  }

  /** A proposal only ever waits for a run that has paused: one that is running has none pending. */
  ghost predicate OnlyPausedRunsWait(a: Agent) {
    forall p :: 0 <= p < |a.proposals| && a.proposals[p].status == Pending && a.proposals[p].runId < |a.runs| ==>
      a.runs[a.proposals[p].runId].status != Running
  }

  ghost predicate AgentSound(a: Agent) {
    && a.Valid()
    && OnlyPausedRunsWait(a)
    && (forall r :: 0 <= r < |a.runs| ==> RunSound(a.runs[r]))
    && (forall p :: 0 <= p < |a.proposals| ==> ProposalSound(a.proposals[p]))
    && OneOpenRun(a)
  }

  /** How a run may change: its subject never, its ending never again. */
  predicate RunEvolves(before: AgentRun, after: AgentRun) {
    && after.requestId == before.requestId && after.conversationId == before.conversationId
    && after.startedBy == before.startedBy && after.startedAt == before.startedAt
    && (Terminal(before.status) ==> after == before.(hiddenAt := after.hiddenAt))
  }

  /** How a proposal may change: what it proposes never, and nothing at all once it left `Pending`. */
  predicate ProposalEvolves(before: Proposal, after: Proposal) {
    && after.runId == before.runId && after.kind == before.kind && after.payload == before.payload
    && after.interruptionRef == before.interruptionRef && after.createdAt == before.createdAt
    && (before.status != Pending ==> after == before)
  }

  ghost predicate AgentEvolves(before: Agent, after: Agent) {
    && |before.runs| <= |after.runs| && |before.proposals| <= |after.proposals|
    && (forall r :: 0 <= r < |before.runs| ==> RunEvolves(before.runs[r], after.runs[r]))
    && (forall p :: 0 <= p < |before.proposals| ==> ProposalEvolves(before.proposals[p], after.proposals[p]))
  }

  ghost predicate AgentKeeps(before: Agent, after: Agent) {
    AgentSound(after) && AgentEvolves(before, after)
  }

  lemma EvolvesTransitive(a: Agent, b: Agent, c: Agent)
    requires AgentEvolves(a, b) && AgentEvolves(b, c)
    ensures AgentEvolves(a, c)
  {
    forall r | 0 <= r < |a.runs| ensures RunEvolves(a.runs[r], c.runs[r]) {
      assert RunEvolves(a.runs[r], b.runs[r]) && RunEvolves(b.runs[r], c.runs[r]);
    }
    forall p | 0 <= p < |a.proposals| ensures ProposalEvolves(a.proposals[p], c.proposals[p]) {
      assert ProposalEvolves(a.proposals[p], b.proposals[p]) && ProposalEvolves(b.proposals[p], c.proposals[p]);
    }
  }

  /** One open run moved on, and the proposals with it. */
  lemma MoveRunKeeps(a: Agent, r: RunId, run: AgentRun, proposals: seq<Proposal>)
    requires AgentSound(a) && r < |a.runs| && RunEvolves(a.runs[r], run) && RunSound(run)
    requires Terminal(a.runs[r].status) ==> Terminal(run.status)
    requires |a.proposals| <= |proposals|
    requires forall p :: 0 <= p < |a.proposals| ==> ProposalEvolves(a.proposals[p], proposals[p])
    requires forall p :: 0 <= p < |proposals| ==> ProposalSound(proposals[p]) && proposals[p].runId < |a.runs|
    requires run.status == Running ==> a.runs[r].status == Running && |proposals| == |a.proposals|
    requires forall p :: |a.proposals| <= p < |proposals| ==> proposals[p].runId == r
    ensures AgentKeeps(a, a.(runs := a.runs[r := run], proposals := proposals))
  {
    var after := a.(runs := a.runs[r := run], proposals := proposals);
    forall x, y, q | 0 <= x < |after.runs| && 0 <= y < |after.runs| && OpenOn(after.runs[x], q) && OpenOn(after.runs[y], q)
      ensures x == y
    {
      assert OpenOn(a.runs[x], q) && OpenOn(a.runs[y], q);
    }
  }

  lemma RunTurnKeeps(a: Agent, r: RunId, turn: Turn, now: Time)
    requires AgentSound(a) && r < |a.runs| && !Terminal(a.runs[r].status)
    ensures AgentKeeps(a, RunTurn(a, r, turn, now).0)
  {
    var after := RunTurn(a, r, turn, now).0;
    MoveRunKeeps(a, r, after.runs[r], after.proposals);
  }

  lemma ExecuteKeeps(a: Agent, r: nat, turn: Turn, now: Time)
    requires AgentSound(a)
    ensures AgentKeeps(a, ExecuteRun(a, r, turn, now).0)
  {
    if r < |a.runs| && a.runs[r].status == Running {
      RunTurnKeeps(a, r, turn, now);
      var after := FailRun(a, r, now);
      MoveRunKeeps(a, r, after.runs[r], after.proposals);
    }
  }

  /** A run that is open ends, and its pending proposals end with it. */
  lemma EndWithProposalsKeeps(a: Agent, r: RunId, status: RunStatus, now: Time)
    requires AgentSound(a) && r < |a.runs| && !Terminal(a.runs[r].status) && Terminal(status)
    ensures AgentKeeps(a, EndRun(a, r, status, now).(proposals := DropPending(a.proposals, r)))
  {
    var after := EndRun(a, r, status, now);
    MoveRunKeeps(a, r, after.runs[r], DropPending(a.proposals, r));
  }

  lemma ResumeKeeps(a: Agent, r: nat, turn: Turn, now: Time)
    requires AgentSound(a)
    ensures AgentKeeps(a, ResumeRun(a, r, turn, now).0)
  {
    if r < |a.runs| && a.runs[r].status == AwaitingApproval {
      RunTurnKeeps(a, r, turn, now);
      EndWithProposalsKeeps(a, r, Expired, now);
    }
  }

  lemma QueueKeeps(a: Agent, user: Actor, requestId: Option<RequestId>, conversationId: Option<string>, usable: bool, enqueued: bool, now: Time)
    requires AgentSound(a)
    requires requestId.Some? && conversationId.None? ==> !HasOpenRun(a, requestId.value)
    ensures AgentKeeps(a, QueueRun(a, user, requestId, conversationId, usable, enqueued, now).0)
  {
    var after := QueueRun(a, user, requestId, conversationId, usable, enqueued, now).0;
    forall x, y, q | 0 <= x < |after.runs| && 0 <= y < |after.runs| && OpenOn(after.runs[x], q) && OpenOn(after.runs[y], q)
      ensures x == y
    {
      if x < |a.runs| { assert OpenOn(a.runs[x], q); }
      if y < |a.runs| { assert OpenOn(a.runs[y], q); }
    }
  }

  lemma DecideKeeps(a: Agent, p: ProposalId, status: ProposalStatus, approver: Actor, now: Time, created: seq<LineId>)
    requires AgentSound(a) && p < |a.proposals| && a.proposals[p].status == Pending && status != Pending
    ensures AgentKeeps(a, Decided(a, p, status, approver, now, created))
  {
  }

  /** Deciding a proposal and resuming its run. */
  lemma DecideAndResumeKeeps(a: Agent, p: ProposalId, status: ProposalStatus, approver: Actor, created: seq<LineId>, turn: Turn, now: Time)
    requires AgentSound(a) && p < |a.proposals| && a.proposals[p].status == Pending && status != Pending
    ensures AgentKeeps(a, ResumeRun(Decided(a, p, status, approver, now, created), a.proposals[p].runId, turn, now).0)
  {
    var decided := Decided(a, p, status, approver, now, created);
    DecideKeeps(a, p, status, approver, now, created);
    ResumeKeeps(decided, a.proposals[p].runId, turn, now);
    hide Decided, ResumeRun, AgentSound;
    EvolvesTransitive(a, decided, ResumeRun(decided, a.proposals[p].runId, turn, now).0);
  }

  lemma ReflexiveKeeps(a: Agent)
    requires AgentSound(a)
    ensures AgentKeeps(a, a)
  {
  }

  lemma ApproveKeeps(s: Site, p: nat, approver: Actor, o: ApprovalOracle)
    requires s.Valid() && AgentSound(s.agent)
    ensures AgentKeeps(s.agent, Approve(s, p, approver, o).0.agent)
  {
    ReflexiveKeeps(s.agent);
    hide AgentKeeps, ResumeRun, Decided, CreateLines, LineDtos, PayloadRefusal, Assign.Outcome;
    if Undecidable(s.agent, p).None? {
      forall status, created: seq<LineId> | status != Pending
        ensures AgentKeeps(s.agent, Decided(s.agent, p, status, approver, o.now, created))
        ensures AgentKeeps(s.agent, ResumeRun(Decided(s.agent, p, status, approver, o.now, created), s.agent.proposals[p].runId, o.turn, o.now).0)
      {
        DecideKeeps(s.agent, p, status, approver, o.now, created);
        DecideAndResumeKeeps(s.agent, p, status, approver, created, o.turn, o.now);
      }
    }
  }

  lemma RejectKeeps(a: Agent, p: nat, approver: Actor, turn: Turn, now: Time)
    requires AgentSound(a)
    ensures AgentKeeps(a, Reject(a, p, approver, turn, now).0)
  {
    ReflexiveKeeps(a);
    if Undecidable(a, p).None? {
      DecideAndResumeKeeps(a, p, Rejected, approver, a.proposals[p].createdLineItemIds, turn, now);
    }
  }

  lemma AbortKeeps(db: Db, a: Agent, user: Actor, r: nat, now: Time)
    requires AgentSound(a)
    ensures AgentKeeps(a, AbortRun(db, a, user, r, now).0)
  {
    if ViewRefusal(db, a, user, r).None? && !Terminal(a.runs[r].status) {
      EndWithProposalsKeeps(a, r, Aborted, now);
    }
  }

  lemma HideKeeps(db: Db, a: Agent, user: Actor, r: nat, now: Time)
    requires AgentSound(a)
    ensures AgentKeeps(a, HideRun(db, a, user, r, now).0)
    ensures AgentKeeps(a, UnhideRun(db, a, user, r).0)
  {
    if ViewRefusal(db, a, user, r).None? {
      if Terminal(a.runs[r].status) {
        MoveRunKeeps(a, r, a.runs[r].(hiddenAt := Some(now)), a.proposals);
      }
      MoveRunKeeps(a, r, a.runs[r].(hiddenAt := None), a.proposals);
    }
  }

  /** The found runs are expired, the others are untouched. */
  lemma {:induction false} ExpireAllRuns(a: Agent, found: seq<RunId>, now: Time, r: RunId)
    requires (forall i :: 0 <= i < |found| ==> found[i] < |a.runs|) && r < |a.runs|
    ensures r in found ==> ExpireAll(a, found, now).runs[r] == a.runs[r].(status := Expired, endedAt := Some(now))
    ensures r !in found ==> ExpireAll(a, found, now).runs[r] == a.runs[r]
    decreases |found|
  {
    if found != [] {
      var rest := found[..|found| - 1];
      assert found == rest + [found[|found| - 1]];
      ExpireAllRuns(a, rest, now, r);
    }
  }

  lemma {:induction false} ExpireAllKeeps(a: Agent, found: seq<RunId>, now: Time)
    requires AgentSound(a)
    requires forall i :: 0 <= i < |found| ==> found[i] < |a.runs| && a.runs[found[i]].status == AwaitingApproval
    requires forall i, j :: 0 <= i < j < |found| ==> found[i] != found[j]
    ensures AgentKeeps(a, ExpireAll(a, found, now))
    decreases |found|
  {
    hide AgentSound, AgentEvolves, ExpireRun;
    if found == [] {
      ReflexiveKeeps(a);
    } else {
      var rest := found[..|found| - 1];
      var last := found[|found| - 1];
      var before := ExpireAll(a, rest, now);
      ExpireAllKeeps(a, rest, now);
      ExpireAllRuns(a, rest, now, last);
      ExpireKeeps(before, last, now);
      EvolvesTransitive(a, before, ExpireAll(a, found, now));
    }
  }

  lemma ExpireKeeps(a: Agent, r: RunId, now: Time)
    requires AgentSound(a) && r < |a.runs| && !Terminal(a.runs[r].status)
    ensures AgentKeeps(a, ExpireRun(a, r, now))
  {
    EndWithProposalsKeeps(a, r, Expired, now);
  }

  /** One sweep leaves nothing stale, unless it filled its batch. */
  lemma SweepClears(a: Agent, found: seq<RunId>, now: Time)
    requires AgentSound(a) && StaleBatch(a.runs, now, found)
    ensures var after := ExpireAll(a, found, now);
      (exists r :: 0 <= r < |after.runs| && Stale(after.runs[r], now)) ==> |found| == EXPIRY_BATCH
  {
    hide AgentSound, ExpireAll;
    var after := ExpireAll(a, found, now);
    forall r | 0 <= r < |after.runs| && Stale(after.runs[r], now) ensures |found| == EXPIRY_BATCH {
      ExpireAllRuns(a, found, now, r);
      assert r !in found;
    }
  }
}
