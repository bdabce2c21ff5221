/** For every proposal, in every reachable state: what was done in its name. */
module ProposalBooks {
  import opened Wrappers
  import opened Database
  import opened Outside
  import opened AgentRuns
  import opened AgentApproval
  import opened AgentHistory
  import opened AgentMachine
  import opened Provenance
  import opened ApprovalLaws
  import History
  import PlatformHistory
  import Assign
  import RequestService
  import Platform

  /** These calls create the first of the proposed items, in order, on the request both the run and
      the proposal name, on the decider's authority. */
  ghost predicate CreatesLines(entries: seq<Entry>, db: Db, a: Agent, p: ProposalId)
    requires a.Valid() && p < |a.proposals|
  {
    var payload := a.proposals[p].payload;
    && payload.items.Some? && |entries| <= |payload.items.value|
    && forall i :: 0 <= i < |entries| ==>
         && entries[i].call.AddLine? && entries[i].line.Some?
         && Some(entries[i].call.requestId) == a.runs[a.proposals[p].runId].requestId == payload.requestId
         && AsksFor(entries[i].call.lineDto, payload.items.value[i], db.catalogue)
         && Some(entries[i].call.actor.id) == a.proposals[p].approvedById
  }

  /** This call assigns the proposed line, on the decider's authority and without an override. */
  ghost predicate AssignsLine(call: Platform.Call, a: Agent, p: ProposalId)
    requires p < |a.proposals|
  {
    && call.AssignLine?
    && Some(call.assignCall.lineId) == a.proposals[p].payload.lineItemId
    && Some(call.assignCall.actor.id) == a.proposals[p].approvedById
    && call.assignCall.budgetOverrideReason.None?
  }

  /** What a proposal's own calls may be, by its status: nothing while undecided or rejected;
      all of it once executed, with the very lines it reports; a proper part of the list, or no
      assign, once failed. */
  ghost predicate Balanced(entries: seq<Entry>, db: Db, a: Agent, p: ProposalId)
    requires a.Valid() && p < |a.proposals|
  {
    var proposal := a.proposals[p];
    match proposal.status
    case Pending => entries == []
    case Rejected => entries == []
    case Executed =>
      if proposal.kind == AssignOne then |entries| == 1 && AssignsLine(entries[0].call, a, p)
      else
        && CreatesLines(entries, db, a, p)
        && |entries| == |proposal.payload.items.value|
        && |proposal.createdLineItemIds| == |entries|
        && forall i :: 0 <= i < |entries| ==> entries[i].line == Some(proposal.createdLineItemIds[i])
    case ProposalFailed =>
      if proposal.kind == AssignOne then entries == []
      else CreatesLines(entries, db, a, p) && |entries| < |proposal.payload.items.value|
  }

  ghost predicate Books(s: Site, log: seq<Entry>)
    requires s.Valid()
  {
    && (forall p :: 0 <= p < |s.agent.proposals| ==> Balanced(Credits(log, p), s.world.db, s.agent, p))
    && (forall p :: |s.agent.proposals| <= p ==> Credits(log, p) == [])
  }

  /** A proposal whose own row did not move reads the same against later tables. */
  lemma StandingProposalStaysBalanced(entries: seq<Entry>, db: Db, a: Agent, db': Db, a': Agent, p: ProposalId)
    requires a.Valid() && a'.Valid() && p < |a.proposals| && db'.catalogue == db.catalogue
    requires AgentEvolves(a, a') && a'.proposals[p].status == a.proposals[p].status
    requires Balanced(entries, db, a, p)
    ensures Balanced(entries, db', a', p)
  {
    assert ProposalEvolves(a.proposals[p], a'.proposals[p]);
    assert RunEvolves(a.runs[a.proposals[p].runId], a'.runs[a.proposals[p].runId]);
    SameProposalReadsTheSame(entries, db, a, db', a', p);
    hide Balanced, AgentEvolves, Db.Valid;
  }

  lemma SameProposalReadsTheSame(entries: seq<Entry>, db: Db, a: Agent, db': Db, a': Agent, p: ProposalId)
    requires a.Valid() && a'.Valid() && p < |a.proposals| && p < |a'.proposals| && db'.catalogue == db.catalogue
    requires a'.proposals[p].runId == a.proposals[p].runId && a'.proposals[p].payload == a.proposals[p].payload
    requires a'.proposals[p].kind == a.proposals[p].kind && a'.proposals[p].status == a.proposals[p].status
    requires a'.proposals[p].status != Pending ==> a'.proposals[p] == a.proposals[p]
    requires a'.runs[a.proposals[p].runId].requestId == a.runs[a.proposals[p].runId].requestId
    ensures Balanced(entries, db, a, p) ==> Balanced(entries, db', a', p)
  {
    hide AsksFor;
  }

  /** Without an approval, a proposal leaves `Pending` for `Rejected` or not at all. */
  predicate OnlyRejects(before: seq<Proposal>, after: seq<Proposal>) {
    && |before| <= |after|
    && forall p :: 0 <= p < |after| ==>
         if p < |before| then
           after[p].status == before[p].status || (before[p].status == Pending && after[p].status == Rejected)
         else after[p].status in {Pending, Rejected}
  }

  lemma UnapprovedStepKeepsBooks(s: Site, after: Site, log: seq<Entry>, log': seq<Entry>)
    requires s.Valid() && after.Valid() && Books(s, log)
    requires after.world.db.catalogue == s.world.db.catalogue && AgentEvolves(s.agent, after.agent)
    requires OnlyRejects(s.agent.proposals, after.agent.proposals)
    requires forall p :: Credits(log', p) == Credits(log, p)
    ensures Books(after, log')
  {
    forall p | 0 <= p < |after.agent.proposals| ensures Balanced(Credits(log', p), after.world.db, after.agent, p) {
      if p < |s.agent.proposals| && after.agent.proposals[p].status == s.agent.proposals[p].status {
        StandingProposalStaysBalanced(Credits(log, p), s.world.db, s.agent, after.world.db, after.agent, p);
      }
    }
  }

  lemma ResumeOnlyRejects(a: Agent, r: nat, turn: Turn, now: Time)
    ensures OnlyRejects(a.proposals, ResumeRun(a, r, turn, now).0.proposals)
    ensures OnlyRejects(a.proposals, AgentRuns.ExecuteRun(a, r, turn, now).0.proposals)
  {
  }

  lemma {:induction false} ExpiryOnlyRejects(a: Agent, found: seq<RunId>, now: Time)
    requires forall i :: 0 <= i < |found| ==> found[i] < |a.runs|
    ensures OnlyRejects(a.proposals, ExpireAll(a, found, now).proposals)
    ensures |ExpireAll(a, found, now).proposals| == |a.proposals|
    decreases |found|
  {
    if found != [] {
      ExpiryOnlyRejects(a, found[..|found| - 1], now);
    }
  }

  /** Every call but an approval decides nothing but rejections. */
  lemma OtherCallsOnlyReject(s: Site, c: AgentCall)
    requires s.Valid() && !c.Approve?
    ensures OnlyRejects(s.agent.proposals, Step(s, c).agent.proposals)
  {
    hide Db.Valid, Platform.Step, ResumeRun, AgentRuns.ExecuteRun;
    match c
    case ExecuteRun(r, turn, now) => ResumeOnlyRejects(s.agent, r, turn, now);
    case Reject(p, approver, turn, now) =>
      if Undecidable(s.agent, p).None? {
        ResumeOnlyRejects(Decided(s.agent, p, Rejected, approver, now, s.agent.proposals[p].createdLineItemIds), s.agent.proposals[p].runId, turn, now);
      }
    case SweepRuns(found, now) =>
      if StaleBatch(s.agent.runs, now, found) {
        ExpiryOnlyRejects(s.agent, found, now);
      }
    case _ =>
  }

  /** One decision, entered together with the calls made for it. */
  lemma DecisionKeepsBooks(s: Site, world: World, p: ProposalId, status: ProposalStatus, approver: Actor, now: Time, created: seq<LineId>,
                           log: seq<Entry>, trace: seq<Entry>)
    requires s.Valid() && world.db.Valid() && Books(s, log) && AgentSound(s.agent) && world.db.catalogue == s.world.db.catalogue
    requires p < |s.agent.proposals| && s.agent.proposals[p].status == Pending && status != Pending
    requires forall q :: q != p ==> Credits(trace, q) == []
    requires Balanced(Credits(trace, p), world.db, Decided(s.agent, p, status, approver, now, created), p)
    ensures Books(Site(world, Decided(s.agent, p, status, approver, now, created)), log + trace)
  {
    var a := s.agent;
    var decided := Decided(a, p, status, approver, now, created);
    DecideKeeps(a, p, status, approver, now, created);
    PendingHasNoCredits(s, log, p);
    forall q ensures Credits(log + trace, q) == if q == p then Credits(trace, p) else Credits(log, q) {
      CreditsConcat(log, trace, q);
      assert Credits(log, q) + [] == Credits(log, q) && [] + Credits(trace, p) == Credits(trace, p);
    }
    hide Credits, Db.Valid, AgentSound;
    forall q | 0 <= q < |decided.proposals| ensures Balanced(Credits(log + trace, q), world.db, decided, q) {
      if q != p {
        DecisionSparesOthers(s, world, p, status, approver, now, created, log, q);
      }
    }
  }

  lemma PendingHasNoCredits(s: Site, log: seq<Entry>, p: ProposalId)
    requires s.Valid() && Books(s, log) && p < |s.agent.proposals| && s.agent.proposals[p].status == Pending
    ensures Credits(log, p) == []
  {
    assert Balanced(Credits(log, p), s.world.db, s.agent, p);
  }

  lemma DecisionSparesOthers(s: Site, world: World, p: ProposalId, status: ProposalStatus, approver: Actor, now: Time, created: seq<LineId>,
                             log: seq<Entry>, q: ProposalId)
    requires s.Valid() && world.db.Valid() && Books(s, log) && world.db.catalogue == s.world.db.catalogue
    requires p < |s.agent.proposals| && q < |s.agent.proposals| && q != p
    requires AgentEvolves(s.agent, Decided(s.agent, p, status, approver, now, created))
    ensures Balanced(Credits(log, q), world.db, Decided(s.agent, p, status, approver, now, created), q)
  {
    StandingProposalStaysBalanced(Credits(log, q), s.world.db, s.agent, world.db, Decided(s.agent, p, status, approver, now, created), q);
  }
}
