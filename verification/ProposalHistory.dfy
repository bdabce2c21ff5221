/** The agent invariants and the proposal books over every run of the combined machine. */
module ProposalHistory {
  import opened Wrappers
  import opened Database
  import opened Outside
  import opened AgentRuns
  import opened AgentApproval
  import opened AgentHistory
  import opened AgentMachine
  import opened Provenance
  import opened ProposalBooks
  import History
  import PlatformHistory
  import ApprovalLaws
  import Assign
  import RequestService
  import Platform

  ghost predicate SiteSound(s: Site) {
    s.Valid() && History.Sound(s.world.db) && AgentSound(s.agent)
  }

  lemma CreationKeepsSite(w: World, r: RequestId, dtos: seq<RequestService.LineDto>, approver: Actor, failsAt: nat)
    requires History.Sound(w.db)
    ensures var db := CreateLines(w.db, r, dtos, |dtos|, approver, failsAt).0;
      History.Sound(db) && db.catalogue == w.db.catalogue
  {
    assert w.db.Valid();
    hide History.Sound, CreateLines;
    CreationIsARun(w, r, dtos, |dtos|, approver, failsAt);
    var created := CreateLines(w.db, r, dtos, |dtos|, approver, failsAt).1;
    PlatformHistory.RunKeeps(w, AddCalls(r, dtos, |created|, approver));
  }

  lemma AgentCallKeepsAgent(s: Site, c: AgentCall)
    requires s.Valid() && AgentSound(s.agent)
    ensures AgentKeeps(s.agent, Step(s, c).agent)
  {
    hide Db.Valid, Platform.Step, ResumeRun, AgentRuns.ExecuteRun, AgentApproval.Approve, AgentApproval.Reject,
         AgentRuns.AbortRun, AgentRuns.HideRun, AgentRuns.UnhideRun, QueueRun, AgentKeeps;
    ReflexiveKeeps(s.agent);
    var a := s.agent;
    match c
    case StartRun(user, r, usable, enqueued, now) =>
      if RequestRefusal(s.world.db, user, r).None? && !HasOpenRun(a, r) {
        QueueKeeps(a, user, Some(r), None, usable, enqueued, now);
      }
    case StartConversationRun(user, conversation, about, usable, enqueued, now) =>
      QueueKeeps(a, user, about, Some(conversation), usable, enqueued, now);
    case ExecuteRun(r, turn, now) => ExecuteKeeps(a, r, turn, now);
    case Approve(p, approver, o) => ApproveKeeps(s, p, approver, o);
    case Reject(p, approver, turn, now) => RejectKeeps(a, p, approver, turn, now);
    case AbortRun(user, r, now) => AbortKeeps(s.world.db, a, user, r, now);
    case HideRun(user, r, now) => HideKeeps(s.world.db, a, user, r, now);
    case UnhideRun(user, r) => HideKeeps(s.world.db, a, user, r, 0);
    case SweepRuns(found, now) =>
      if StaleBatch(a.runs, now, found) {
        ExpireAllKeeps(a, found, now);
      }
    case SetSwitch(enabled) => SwitchKeeps(a, enabled);
    case ByHand(call) =>
  }

  lemma SwitchKeeps(a: Agent, enabled: bool)
    requires AgentSound(a)
    ensures AgentKeeps(a, AgentRuns.SetSwitch(a, enabled))
  {
  }

  lemma AgentCallKeepsWorld(s: Site, c: AgentCall)
    requires SiteSound(s)
    ensures History.Sound(Step(s, c).world.db) && Step(s, c).world.db.catalogue == s.world.db.catalogue
  {
    assert s.Valid() && History.Sound(s.world.db);
    hide SiteSound, History.Sound, Step, Trace;
    StepIsItsTrace(s, c);
    PlatformHistory.RunKeeps(s.world, CallsOf(Trace(s, c)));
  }

  /** The run invariants hold for ever: endings are final and dated, waiting runs can resume,
      hidden ones have ended, and a request has at most one run open from its own screen. */
  lemma {:induction false} RunKeepsAgent(s: Site, calls: seq<AgentCall>)
    requires SiteSound(s)
    ensures SiteSound(Run(s, calls)) && AgentEvolves(s.agent, Run(s, calls).agent)
    decreases |calls|
  {
    assert s.Valid() && AgentSound(s.agent);
    if calls == [] {
      ReflexiveKeeps(s.agent);
    } else {
      AgentCallKeepsAgent(s, calls[0]);
      AgentCallKeepsWorld(s, calls[0]);
      hide Step, History.Sound, AgentSound, AgentEvolves, Db.Valid;
      RunKeepsAgent(Step(s, calls[0]), calls[1..]);
      EvolvesTransitive(s.agent, Step(s, calls[0]).agent, Run(s, calls).agent);
    }
  }

  // ── the books ──

  /** Past the decision only the run moves on, and with it at most some rejections. */
  lemma ResumptionKeepsBooks(world: World, decided: Agent, r: RunId, turn: Turn, now: Time, log: seq<Entry>)
    requires world.db.Valid() && AgentSound(decided) && Books(Site(world, decided), log)
    ensures ResumeRun(decided, r, turn, now).0.Valid() && Books(Site(world, ResumeRun(decided, r, turn, now).0), log)
  {
    ResumeKeeps(decided, r, turn, now);
    ResumeOnlyRejects(decided, r, turn, now);
    hide ResumeRun, Books, OnlyRejects, AgentSound, AgentEvolves;
    UnapprovedStepKeepsBooks(Site(world, decided), Site(world, ResumeRun(decided, r, turn, now).0), log, log);
  }

  lemma RefusedApprovalKeepsBooks(s: Site, world: World, log: seq<Entry>, trace: seq<Entry>)
    requires s.Valid() && world.db.Valid() && Books(s, log) && AgentSound(s.agent) && world.db.catalogue == s.world.db.catalogue
    requires forall q :: Credits(trace, q) == []
    ensures Books(Site(world, s.agent), log + trace)
  {
    ReflexiveKeeps(s.agent);
    forall q ensures Credits(log + trace, q) == Credits(log, q) {
      CreditsConcat(log, trace, q);
    }
    hide Books, AgentSound, AgentEvolves, Credits;
    UnapprovedStepKeepsBooks(s, Site(world, s.agent), log, log + trace);
  }

  /** A decision and the resumption after it. */
  lemma DecideAndResumeKeepsBooks(s: Site, world: World, p: ProposalId, status: ProposalStatus, approver: Actor, created: seq<LineId>,
                                  turn: Turn, now: Time, log: seq<Entry>, trace: seq<Entry>)
    requires s.Valid() && world.db.Valid() && Books(s, log) && AgentSound(s.agent) && world.db.catalogue == s.world.db.catalogue
    requires p < |s.agent.proposals| && s.agent.proposals[p].status == Pending && status != Pending
    requires forall q :: q != p ==> Credits(trace, q) == []
    requires Balanced(Credits(trace, p), world.db, Decided(s.agent, p, status, approver, now, created), p)
    ensures var after := ResumeRun(Decided(s.agent, p, status, approver, now, created), s.agent.proposals[p].runId, turn, now).0;
      after.Valid() && Books(Site(world, after), log + trace)
  {
    DecideKeeps(s.agent, p, status, approver, now, created);
    DecisionKeepsBooks(s, world, p, status, approver, now, created, log, trace);
    hide Books, AgentSound, AgentEvolves, Balanced, ResumeRun, Decided, Db.Valid;
    ResumptionKeepsBooks(world, Decided(s.agent, p, status, approver, now, created), s.agent.proposals[p].runId, turn, now, log + trace);
  }

  lemma {:induction false} CreditsOfOne(e: Entry, q: ProposalId)
    ensures Credits([e], q) == if e.acted && e.proposal == Some(q) then [e] else []
  {
    assert [e][1..] == [];
    assert Credits([e][1..], q) == [];
  }

  lemma AssignTrace(s: Site, p: ProposalId, approver: Actor, o: ApprovalOracle)
    requires SiteSound(s) && s.agent.Enabled() && Undecidable(s.agent, p).None?
    requires s.agent.proposals[p].kind == AssignOne && s.agent.proposals[p].payload.lineItemId.Some?
    ensures var call := AssignCallOf(s.agent, p, approver); var (world, result) := Assign.Outcome(s.world, call, o.assign);
      && Trace(s, AgentCall.Approve(p, approver, o)) == [Entry(Platform.AssignLine(call, o.assign), Some(p), result.Done?, None)]
      && world.db.Valid() && world.db.catalogue == s.world.db.catalogue
  {
    var call := AssignCallOf(s.agent, p, approver);
    hide Assign.Outcome, History.Sound;
    PlatformHistory.AssignKeeps(s.world, call, o.assign);
  }

  lemma AssignBalances(db: Db, a: Agent, p: ProposalId, approver: Actor, now: Time, assign: Assign.Oracle)
    requires a.Valid() && p < |a.proposals| && a.proposals[p].kind == AssignOne && a.proposals[p].payload.lineItemId.Some?
    ensures Balanced([Entry(Platform.AssignLine(AssignCallOf(a, p, approver), assign), Some(p), true, None)], db, Decided(a, p, Executed, approver, now, []), p)
    ensures Balanced([], db, Decided(a, p, ProposalFailed, approver, now, []), p)
  {
  }

  /** The entry of an assign, and what it credits. */
  lemma AssignCredits(s: Site, p: ProposalId, approver: Actor, o: ApprovalOracle)
    requires SiteSound(s) && s.agent.Enabled() && Undecidable(s.agent, p).None?
    requires s.agent.proposals[p].kind == AssignOne && s.agent.proposals[p].payload.lineItemId.Some?
    ensures var trace := Trace(s, AgentCall.Approve(p, approver, o)); var call := AssignCallOf(s.agent, p, approver);
      forall q :: Credits(trace, q) == if q == p && Assign.Outcome(s.world, call, o.assign).1.Done?
        then [Entry(Platform.AssignLine(call, o.assign), Some(p), true, None)] else []
  {
    AssignTrace(s, p, approver, o);
    var call := AssignCallOf(s.agent, p, approver);
    var e := Entry(Platform.AssignLine(call, o.assign), Some(p), Assign.Outcome(s.world, call, o.assign).1.Done?, None);
    hide Trace, Assign.Outcome, AssignCallOf, SiteSound, Credits;
    forall q ensures Credits([e], q) == if q == p && e.acted then [e] else [] {
      CreditsOfOne(e, q);
    }
  }

  lemma AssignApprovalKeepsBooks(s: Site, p: ProposalId, approver: Actor, o: ApprovalOracle, log: seq<Entry>)
    requires SiteSound(s) && Books(s, log) && s.agent.Enabled() && Undecidable(s.agent, p).None?
    requires s.agent.proposals[p].kind == AssignOne && s.agent.proposals[p].payload.lineItemId.Some?
    ensures Books(ApproveAssign(s, p, approver, o).0, log + Trace(s, AgentCall.Approve(p, approver, o)))
  {
    AssignTrace(s, p, approver, o);
    AssignCredits(s, p, approver, o);
    hide Trace, Assign.Outcome, Credits, History.Sound, AgentSound, Books, ResumeRun, PayloadRefusal, Balanced, Decided, AssignCallOf;
    var (world, result) := Assign.Outcome(s.world, AssignCallOf(s.agent, p, approver), o.assign);
    var trace := Trace(s, AgentCall.Approve(p, approver, o));
    AssignBalances(world.db, s.agent, p, approver, o.now, o.assign);
    hide Db.Valid;
    if result.Thrown? {
      RefusedApprovalKeepsBooks(s, world, log, trace);
    } else if result.Blocked? {
      DecideAndResumeKeepsBooks(s, world, p, ProposalFailed, approver, [], o.turn, o.now, log, trace);
    } else {
      DecideAndResumeKeepsBooks(s, world, p, Executed, approver, [], o.turn, o.now, log, trace);
    }
  }

  lemma LineTrace(s: Site, p: ProposalId, approver: Actor, o: ApprovalOracle)
    requires SiteSound(s) && s.agent.Enabled() && Undecidable(s.agent, p).None?
    requires s.agent.proposals[p].kind == LineItems && PayloadRefusal(s.world.db, s.agent, p).None?
    ensures var r := s.agent.runs[s.agent.proposals[p].runId].requestId.value; var dtos := LineDtos(s.world.db, s.agent, p);
      var (db, created, error) := CreateLines(s.world.db, r, dtos, |dtos|, approver, o.failsAt);
      && Trace(s, AgentCall.Approve(p, approver, o)) == ActedOn(AddCalls(r, dtos, |created|, approver), p, created)
      && db.Valid() && db.catalogue == s.world.db.catalogue
  {
    var r := s.agent.runs[s.agent.proposals[p].runId].requestId.value;
    CreationKeepsSite(s.world, r, LineDtos(s.world.db, s.agent, p), approver, o.failsAt);
    hide CreateLines, LineDtos, History.Sound, AddCalls, ActedOn;
  }

  /** The created lines are the first of the proposed ones: all of them, or as many as went through. */
  lemma CreationBalances(db: Db, db': Db, a: Agent, p: ProposalId, approver: Actor, n: nat, made: seq<LineId>, status: ProposalStatus, now: Time, created: seq<LineId>)
    requires db.Valid() && a.Valid() && p < |a.proposals| && a.proposals[p].kind == LineItems && PayloadRefusal(db, a, p).None?
    requires db'.catalogue == db.catalogue && n <= |LineDtos(db, a, p)|
    requires |made| == n
    requires (status == Executed && n == |LineDtos(db, a, p)| && created == made) || (status == ProposalFailed && n < |LineDtos(db, a, p)|)
    ensures Balanced(ActedOn(AddCalls(a.runs[a.proposals[p].runId].requestId.value, LineDtos(db, a, p), n, approver), p, made), db',
                     Decided(a, p, status, approver, now, created), p)
  {
    ApprovalLaws.CreatableMeans(db, a, p);
    ApprovalLaws.DtosAskForTheItems(db, a, p);
    hide LineDtos, PayloadRefusal, ApprovalLaws.AsksFor, Db.Valid;
  }

  lemma LineApprovalKeepsBooks(s: Site, p: ProposalId, approver: Actor, o: ApprovalOracle, log: seq<Entry>)
    requires SiteSound(s) && Books(s, log) && s.agent.Enabled() && Undecidable(s.agent, p).None?
    requires s.agent.proposals[p].kind == LineItems && PayloadRefusal(s.world.db, s.agent, p).None?
    ensures Books(ApproveLineItems(s, p, approver, o).0, log + Trace(s, AgentCall.Approve(p, approver, o)))
  {
    LineTrace(s, p, approver, o);
    var a := s.agent;
    var r := a.runs[a.proposals[p].runId].requestId.value;
    var dtos := LineDtos(s.world.db, a, p);
    var (db, created, error) := CreateLines(s.world.db, r, dtos, |dtos|, approver, o.failsAt);
    var world := s.world.(db := db);
    var made := AddCalls(r, dtos, |created|, approver);
    var trace := ActedOn(made, p, created);
    forall q ensures Credits(trace, q) == if p == q then trace else [] {
      CreditsOfActed(made, p, created, q);
    }
    var status := if error.Some? then ProposalFailed else Executed;
    var ids := if error.Some? then [] else created;
    CreationBalances(s.world.db, db, a, p, approver, |created|, created, status, o.now, ids);
    DecideKeeps(a, p, status, approver, o.now, ids);
    hide Trace, CreateLines, LineDtos, Credits, AddCalls, ActedOn, Db.Valid, History.Sound, Books, AgentSound, Balanced, ResumeRun, PayloadRefusal;
    if error.Some? {
      DecisionKeepsBooks(s, world, p, status, approver, o.now, ids, log, trace);
    } else {
      DecideAndResumeKeepsBooks(s, world, p, status, approver, ids, o.turn, o.now, log, trace);
    }
  }

  lemma StepKeepsBooks(s: Site, c: AgentCall, log: seq<Entry>)
    requires SiteSound(s) && Books(s, log)
    ensures Books(Step(s, c), log + Trace(s, c))
  {
    if c.Approve? {
      ApprovalKeepsBooks(s, c.proposalId, c.approver, c.answers, log);
    } else {
      AgentCallKeepsAgent(s, c);
      AgentCallKeepsWorld(s, c);
      OtherCallsOnlyReject(s, c);
      forall q ensures Credits(log + Trace(s, c), q) == Credits(log, q) {
        CreditsConcat(log, Trace(s, c), q);
        if c.ByHand? {
          CreditsOfOne(Entry(c.call, None, true, None), q);
        }
      }
      hide Step, Trace, Credits, Books, AgentSound, AgentEvolves, OnlyRejects, History.Sound, Db.Valid;
      UnapprovedStepKeepsBooks(s, Step(s, c), log, log + Trace(s, c));
    }
  }

  lemma ApprovalKeepsBooks(s: Site, p: nat, approver: Actor, o: ApprovalOracle, log: seq<Entry>)
    requires SiteSound(s) && Books(s, log)
    ensures Books(AgentApproval.Approve(s, p, approver, o).0, log + Trace(s, AgentCall.Approve(p, approver, o)))
  {
    hide Books, AgentSound, History.Sound, Db.Valid, ApproveAssign, ApproveLineItems, CreateLines, LineDtos, Assign.Outcome, PayloadRefusal;
    if !s.agent.Enabled() || Undecidable(s.agent, p).Some? {
      assert log + [] == log;
    } else if s.agent.proposals[p].kind == AssignOne {
      if s.agent.proposals[p].payload.lineItemId.Some? {
        AssignApprovalKeepsBooks(s, p, approver, o, log);
      } else {
        UnreadableAssignChangesNothing(s, p, approver, o);
        assert log + [] == log;
      }
    } else if PayloadRefusal(s.world.db, s.agent, p).Some? {
      RefusedPayloadChangesNothing(s, p, approver, o);
      assert log + [] == log;
    } else {
      LineApprovalKeepsBooks(s, p, approver, o, log);
    }
  }

  lemma UnreadableAssignChangesNothing(s: Site, p: ProposalId, approver: Actor, o: ApprovalOracle)
    requires s.Valid() && p < |s.agent.proposals| && s.agent.proposals[p].payload.lineItemId.None?
    ensures ApproveAssign(s, p, approver, o).0 == s
  {
  }

  lemma RefusedPayloadChangesNothing(s: Site, p: ProposalId, approver: Actor, o: ApprovalOracle)
    requires s.Valid() && p < |s.agent.proposals| && PayloadRefusal(s.world.db, s.agent, p).Some?
    ensures ApproveLineItems(s, p, approver, o).0 == s
  {
  }

  /** After every run: an executed `line_items` proposal accounts for exactly its list of line
      creations, an executed `assign` for exactly one assign, a failed one for a proper part
      of its list or for none, and a pending or rejected one for nothing at all. */
  lemma {:induction false} RunKeepsBooks(s: Site, calls: seq<AgentCall>, log: seq<Entry>)
    requires s.Valid() && SiteSound(s) && Books(s, log)
    ensures Books(Run(s, calls), log + Log(s, calls))
    decreases |calls|
  {
    hide SiteSound, Step, Trace, Books, AgentSound, Db.Valid;
    if calls == [] {
      assert log + Log(s, calls) == log;
    } else {
      StepKeepsSite(s, calls[0]);
      StepKeepsBooks(s, calls[0], log);
      RunKeepsBooks(Step(s, calls[0]), calls[1..], log + Trace(s, calls[0]));
      assert log + Trace(s, calls[0]) + Log(Step(s, calls[0]), calls[1..]) == log + Log(s, calls);
    }
  }

  lemma StepKeepsSite(s: Site, c: AgentCall)
    requires s.Valid() && SiteSound(s)
    ensures SiteSound(Step(s, c))
  {
    AgentCallKeepsAgent(s, c);
    AgentCallKeepsWorld(s, c);
    hide Step, AgentSound, AgentEvolves, History.Sound;
  }
}
