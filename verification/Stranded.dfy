/**
  Proposals whose run ended without them: exactly when that happens, and what it means
  for the kill switch.
 */
module Stranded {
  import opened Wrappers
  import opened Database
  import opened Outside
  import opened AgentRuns
  import opened AgentApproval
  import opened AgentMachine
  import opened AgentHistory
  import opened ProposalBooks
  import Assign
  import Platform

  /** Still pending, though the run that waits for it is over. */
  predicate IsStranded(a: Agent, p: nat) {
    && p < |a.proposals| && a.proposals[p].status == Pending
    && a.proposals[p].runId < |a.runs| && Terminal(a.runs[a.proposals[p].runId].status)
  }

  // ── when a call strands a proposal ──

  /** A turn the runtime takes, and the rows as it finds them. */
  datatype TakenTurn = TakenTurn(agent: Agent, runId: RunId, turn: Turn)

  function Resumption(a: Agent, r: nat, turn: Turn): Option<TakenTurn> {
    if a.Enabled() && r < |a.runs| && a.runs[r].status == AwaitingApproval && Readable(a.runs[r].runState)
    then Some(TakenTurn(a, r, turn)) else None
  }

  /** The turn an approval leads to: none when it is refused, throws, or breaks off. */
  function ApprovalTurn(s: Site, p: nat, approver: Actor, o: ApprovalOracle): Option<TakenTurn>
    requires s.Valid()
  {
    var a := s.agent;
    if !a.Enabled() || Undecidable(a, p).Some? then None
    else if a.proposals[p].kind == AssignOne then
      if a.proposals[p].payload.lineItemId.None? then None
      else
        var result := Assign.Outcome(s.world, AssignCallOf(a, p, approver), o.assign).1;
        if result.Thrown? then None
        else Resumption(Decided(a, p, if result.Done? then Executed else ProposalFailed, approver, o.now, []), a.proposals[p].runId, o.turn)
    else if PayloadRefusal(s.world.db, a, p).Some? then None
    else
      var dtos := LineDtos(s.world.db, a, p);
      var (_, created, error) :=
        CreateLines(s.world.db, a.runs[a.proposals[p].runId].requestId.value, dtos, |dtos|, approver, o.failsAt);
      if error.Some? then None
      else Resumption(Decided(a, p, Executed, approver, o.now, created), a.proposals[p].runId, o.turn)
  }

  /** The turn a call lets the runtime take, if it gets that far. */
  function TurnTaken(s: Site, c: AgentCall): Option<TakenTurn>
    requires s.Valid()
  {
    var a := s.agent;
    match c
    case ExecuteRun(r, turn, _) =>
      if r < |a.runs| && a.runs[r].status == Running && a.Enabled() then Some(TakenTurn(a, r, turn)) else None
    case Approve(p, approver, o) => ApprovalTurn(s, p, approver, o)
    case Reject(p, approver, turn, now) =>
      if Undecidable(a, p).Some? then None
      else Resumption(Decided(a, p, Rejected, approver, now, a.proposals[p].createdLineItemIds), a.proposals[p].runId, turn)
    case _ => None
  }

  predicate Recognised(call: PendingCall) {
    KindOf(call.toolName).Some?
  }

  /** The turn ends its run: it completes it, throws, or pauses on a tool that is not recognised. */
  predicate Ends(turn: Turn) {
    turn.TurnPaused? ==> exists i :: 0 <= i < |turn.pendingApprovals| && !Recognised(turn.pendingApprovals[i])
  }

  /** The `i`-th pause of the turn is recorded: it and all before it are recognised. */
  predicate RecordedPause(turn: Turn, i: nat) {
    turn.TurnPaused? && i < |turn.pendingApprovals| && forall k :: 0 <= k <= i ==> Recognised(turn.pendingApprovals[k])
  }

  /** `q` waits for the run of this turn when the turn comes back: pending before it, or just recorded by it. */
  predicate Waits(t: TakenTurn, q: nat) {
    if q < |t.agent.proposals| then t.agent.proposals[q].runId == t.runId && t.agent.proposals[q].status == Pending
    else RecordedPause(t.turn, q - |t.agent.proposals|)
  }

  lemma {:induction false} RecordedIsThePrefix(r: RunId, pendings: seq<PendingCall>, now: Time)
    ensures forall i :: 0 <= i < |Recorded(r, pendings, now)| ==> Recognised(pendings[i])
    ensures |Recorded(r, pendings, now)| < |pendings| ==> !Recognised(pendings[|Recorded(r, pendings, now)|])
  {
    if pendings != [] && Recognised(pendings[0]) {
      RecordedIsThePrefix(r, pendings[1..], now);
    }
  }

  lemma RecordedExactlyWhen(r: RunId, turn: Turn, now: Time)
    requires turn.TurnPaused?
    ensures var rows := Recorded(r, turn.pendingApprovals, now);
      && (|rows| < |turn.pendingApprovals| <==> Ends(turn))
      && (forall i :: 0 <= i ==> (i < |rows| <==> RecordedPause(turn, i)))
  {
    RecordedIsThePrefix(r, turn.pendingApprovals, now);
    hide Recorded, Recognised;
    var n := |Recorded(r, turn.pendingApprovals, now)|;
    forall i | 0 <= i ensures i < n <==> RecordedPause(turn, i) {
      if n <= i < |turn.pendingApprovals| {
        assert !Recognised(turn.pendingApprovals[n]);
      }
    }
  }

  /** A turn on an open run strands exactly what waits for the run it ends. */
  lemma TurnStrandsExactlyWhen(a: Agent, r: RunId, turn: Turn, now: Time, q: nat)
    requires a.Valid() && r < |a.runs| && !Terminal(a.runs[r].status)
    ensures IsStranded(RunTurn(a, r, turn, now).0, q) <==> IsStranded(a, q) || (Ends(turn) && Waits(TakenTurn(a, r, turn), q))
  {
    if turn.TurnPaused? {
      RecordedExactlyWhen(r, turn, now);
    }
    hide Recorded, Ends, RecordedPause;
    assert !turn.TurnPaused? ==> Ends(turn) && forall i :: !RecordedPause(turn, i) by {
      OtherTurnsEnd(turn);
    }
  }

  lemma OtherTurnsEnd(turn: Turn)
    ensures !turn.TurnPaused? ==> Ends(turn) && forall i :: !RecordedPause(turn, i)
  {
  }

  /** The rows after a decision and whatever the resumption made of it. */
  lemma ResumptionStrandsExactlyWhen(a: Agent, r: nat, turn: Turn, now: Time, q: nat)
    requires a.Valid()
    ensures var taken := Resumption(a, r, turn);
      IsStranded(ResumeRun(a, r, turn, now).0, q) <==>
        IsStranded(a, q) || (taken.Some? && Ends(taken.value.turn) && Waits(taken.value, q))
  {
    hide Ends, RunTurn, Waits;
    if r < |a.runs| && a.runs[r].status == AwaitingApproval && a.Enabled() && Readable(a.runs[r].runState) {
      TurnStrandsExactlyWhen(a, r, turn, now, q);
    } else if r < |a.runs| && a.runs[r].status == AwaitingApproval {
      DroppingStrandsNothing(a, r, Expired, now, q);
    }
  }

  /** Ending a run together with its pending proposals strands none of them. */
  lemma DroppingStrandsNothing(a: Agent, r: RunId, status: RunStatus, now: Time, q: nat)
    requires r < |a.runs| && !Terminal(a.runs[r].status)
    ensures IsStranded(EndRun(a, r, status, now).(proposals := DropPending(a.proposals, r)), q) <==> IsStranded(a, q)
  {
  }

  lemma DecidingStrandsNothing(a: Agent, p: nat, status: ProposalStatus, approver: Actor, now: Time, created: seq<LineId>, q: nat)
    requires p < |a.proposals| && Undecidable(a, p).None?
    ensures IsStranded(Decided(a, p, status, approver, now, created), q) <==> IsStranded(a, q)
  {
  }

  lemma {:induction false} ExpiryStrandsNothing(a: Agent, found: seq<RunId>, now: Time, q: nat)
    requires forall i :: 0 <= i < |found| ==> found[i] < |a.runs| && a.runs[found[i]].status == AwaitingApproval
    requires forall i, j :: 0 <= i < j < |found| ==> found[i] != found[j]
    ensures IsStranded(ExpireAll(a, found, now), q) <==> IsStranded(a, q)
    decreases |found|
  {
    if found != [] {
      var rest, last := found[..|found| - 1], found[|found| - 1];
      ExpiryStrandsNothing(a, rest, now, q);
      ExpireAllRuns(a, rest, now, last);
      hide IsStranded;
      DroppingStrandsNothing(ExpireAll(a, rest, now), last, Expired, now, q);
    }
  }

  /** What it takes for a call to leave `q` stranded that was not. */
  predicate Strands(s: Site, c: AgentCall, q: nat)
    requires s.Valid()
  {
    var taken := TurnTaken(s, c);
    taken.Some? && Ends(taken.value.turn) && Waits(taken.value, q)
  }

  lemma ExecutionStrandsExactlyWhen(s: Site, r: nat, turn: Turn, now: Time, q: nat)
    requires s.Valid() && AgentSound(s.agent)
    ensures IsStranded(AgentRuns.ExecuteRun(s.agent, r, turn, now).0, q) <==>
      IsStranded(s.agent, q) || Strands(s, AgentCall.ExecuteRun(r, turn, now), q)
  {
    var a := s.agent;
    if r < |a.runs| && a.runs[r].status == Running {
      TurnStrandsExactlyWhen(a, r, turn, now, q);
    }
    hide Ends, Waits, RunTurn;
  }

  lemma RejectionStrandsExactlyWhen(s: Site, p: nat, approver: Actor, turn: Turn, now: Time, q: nat)
    requires s.Valid()
    ensures IsStranded(AgentApproval.Reject(s.agent, p, approver, turn, now).0, q) <==>
      IsStranded(s.agent, q) || Strands(s, AgentCall.Reject(p, approver, turn, now), q)
  {
    var a := s.agent;
    hide ResumeRun, Resumption, Ends, Waits, Decided, IsStranded;
    if Undecidable(a, p).None? {
      DecidingStrandsNothing(a, p, Rejected, approver, now, a.proposals[p].createdLineItemIds, q);
      ResumptionStrandsExactlyWhen(Decided(a, p, Rejected, approver, now, a.proposals[p].createdLineItemIds), a.proposals[p].runId, turn, now, q);
    }
  }

  lemma ApprovalStrandsExactlyWhen(s: Site, p: nat, approver: Actor, o: ApprovalOracle, q: nat)
    requires s.Valid()
    ensures IsStranded(AgentApproval.Approve(s, p, approver, o).0.agent, q) <==>
      IsStranded(s.agent, q) || Strands(s, AgentCall.Approve(p, approver, o), q)
  {
    hide ResumeRun, Resumption, Ends, Waits, Decided, IsStranded, CreateLines, LineDtos, PayloadRefusal, Assign.Outcome, Db.Valid;
    var a := s.agent;
    if Undecidable(a, p).None? {
      forall status, created: seq<LineId>
        ensures IsStranded(Decided(a, p, status, approver, o.now, created), q) <==> IsStranded(a, q)
        ensures var decided := Decided(a, p, status, approver, o.now, created); var taken := Resumption(decided, a.proposals[p].runId, o.turn);
          IsStranded(ResumeRun(decided, a.proposals[p].runId, o.turn, o.now).0, q) <==>
            IsStranded(a, q) || (taken.Some? && Ends(taken.value.turn) && Waits(taken.value, q))
      {
        DecidingStrandsNothing(a, p, status, approver, o.now, created, q);
        ResumptionStrandsExactlyWhen(Decided(a, p, status, approver, o.now, created), a.proposals[p].runId, o.turn, o.now, q);
      }
    }
  }

  /** A call strands a proposal if and only if it lets the runtime take a turn that ends the run
      while the proposal waits for it: pending before the turn, or recorded by it. */
  lemma StepStrandsExactlyWhen(s: Site, c: AgentCall, q: nat)
    requires s.Valid() && AgentSound(s.agent)
    ensures IsStranded(Step(s, c).agent, q) <==> IsStranded(s.agent, q) || Strands(s, c, q)
  {
    hide Db.Valid, Platform.Step, ResumeRun, AgentRuns.ExecuteRun, AgentApproval.Approve, AgentApproval.Reject, ApprovalTurn, Resumption,
         Ends, Waits, DropPending;
    match c
    case ExecuteRun(r, turn, now) => ExecutionStrandsExactlyWhen(s, r, turn, now, q);
    case Approve(p, approver, o) => ApprovalStrandsExactlyWhen(s, p, approver, o, q);
    case Reject(p, approver, turn, now) => RejectionStrandsExactlyWhen(s, p, approver, turn, now, q);
    case AbortRun(user, r, now) =>
      if ViewRefusal(s.world.db, s.agent, user, r).None? && !Terminal(s.agent.runs[r].status) {
        DroppingStrandsNothing(s.agent, r, Aborted, now, q);
      }
    case SweepRuns(found, now) =>
      if StaleBatch(s.agent.runs, now, found) {
        ExpiryStrandsNothing(s.agent, found, now, q);
      }
    case _ =>
  }

  /** What both runtime adapters do with a decision that leaves another pause of the run open: refuse it. */
  predicate RefusesPartialDecisions(t: TakenTurn) {
    (exists q :: 0 <= q < |t.agent.proposals| && t.agent.proposals[q].runId == t.runId && t.agent.proposals[q].status == Pending) ==>
      t.turn.TurnThrows?
  }

  /** A run that has paused on two calls: deciding either proposal, once it comes to the resume,
      fails the run and strands the other. */
  lemma DecidingOneStrandsTheOther(s: Site, c: AgentCall, p: nat, q: nat)
    requires s.Valid() && AgentSound(s.agent)
    requires (c.Approve? || c.Reject?) && c.proposalId == p && p < |s.agent.proposals|
    requires q < |s.agent.proposals| && q != p && s.agent.proposals[q].runId == s.agent.proposals[p].runId
    requires s.agent.proposals[q].status == Pending
    requires TurnTaken(s, c).Some? && RefusesPartialDecisions(TurnTaken(s, c).value)
    ensures IsStranded(Step(s, c).agent, q)
  {
    StepStrandsExactlyWhen(s, c, q);
    hide Step, AgentSound, Db.Valid, CreateLines, LineDtos, PayloadRefusal, Assign.Outcome;
    assert Waits(TurnTaken(s, c).value, q);
  }

  function TwoPauses(args: Args): Turn {
    TurnPaused("state", [PendingCall("first", "propose_assign", args), PendingCall("second", "propose_assign", args)])
  }

  /** It happens: one conversation, one turn that asks for two assigns, one rejection. */
  lemma TwoPausesStrand(s: Site, user: Actor, args: Args)
    requires s.Valid() && s.agent == Agent(None, [], [])
    ensures var calls := [AgentCall.StartConversationRun(user, "chat", None, true, true, 0),
                          AgentCall.ExecuteRun(0, TwoPauses(args), 0),
                          AgentCall.Reject(0, user, TurnThrows, 0)];
      IsStranded(Run(s, calls).agent, 1)
  {
    hide Db.Valid, Run, Platform.Step;
    var start := AgentCall.StartConversationRun(user, "chat", None, true, true, 0);
    var execute := AgentCall.ExecuteRun(0, TwoPauses(args), 0);
    var reject := AgentCall.Reject(0, user, TurnThrows, 0);
    OneStep(s, start);
    RunAppend(s, [start], execute);
    RunAppend(s, [start, execute], reject);
    assert [start] + [execute] == [start, execute] && [start, execute] + [reject] == [start, execute, reject];
    hide AgentRuns.ExecuteRun, AgentApproval.Reject, QueueRun;
    TwoPausesOnRows(user, args);
  }

  lemma TwoPausesOnRows(user: Actor, args: Args)
    ensures var started := AgentRuns.StartConversationRun(Agent(None, [], []), user, "chat", None, true, true, 0).0;
      var executed := AgentRuns.ExecuteRun(started, 0, TwoPauses(args), 0).0;
      IsStranded(AgentApproval.Reject(executed, 0, user, TurnThrows, 0).0, 1)
  {
    var pendings := TwoPauses(args).pendingApprovals;
    assert pendings[1..] == [pendings[1]] && pendings[1..][1..] == [];
    var first, second := NewProposal(0, pendings[0], AssignOne, 0), NewProposal(0, pendings[1], AssignOne, 0);
    assert Recorded(0, pendings, 0) == [first, second];
    var paused := AgentRun(user, None, Some("chat"), AwaitingApproval, Some("state"), 0, None, None);
    assert "state"[0] == 's' && 's' in "state" && Readable(paused.runState);
  }

  // ── stranded for good, and nothing else is ──

  /** Nobody can decide it, and nothing can drop it. */
  lemma StepSpares(s: Site, c: AgentCall, q: nat)
    requires s.Valid() && IsStranded(s.agent, q)
    ensures IsStranded(Step(s, c).agent, q)
  {
    hide Db.Valid, Platform.Step, ResumeRun, AgentRuns.ExecuteRun, AgentApproval.Approve, IsStranded, DropPending;
    match c
    case ExecuteRun(r, turn, now) => ExecutionSpares(s.agent, r, turn, now, q);
    case Approve(p, approver, o) => ApprovalStrandsExactlyWhen(s, p, approver, o, q);
    case Reject(p, approver, turn, now) => RejectionStrandsExactlyWhen(s, p, approver, turn, now, q);
    case AbortRun(user, r, now) =>
      if ViewRefusal(s.world.db, s.agent, user, r).None? && !Terminal(s.agent.runs[r].status) {
        DroppingStrandsNothing(s.agent, r, Aborted, now, q);
      }
    case SweepRuns(found, now) =>
      if StaleBatch(s.agent.runs, now, found) {
        ExpiryStrandsNothing(s.agent, found, now, q);
      }
    case _ => RestSpares(s, c, q);
  }

  lemma ExecutionSpares(a: Agent, r: nat, turn: Turn, now: Time, q: nat)
    requires IsStranded(a, q)
    ensures IsStranded(AgentRuns.ExecuteRun(a, r, turn, now).0, q)
  {
    hide Recorded;
  }

  lemma RestSpares(s: Site, c: AgentCall, q: nat)
    requires s.Valid() && IsStranded(s.agent, q)
    requires c.StartRun? || c.StartConversationRun? || c.HideRun? || c.UnhideRun? || c.SetSwitch? || c.ByHand?
    ensures IsStranded(Step(s, c).agent, q)
  {
    hide Db.Valid, Platform.Step;
  }

  lemma {:induction false} PendingIsCounted(proposals: seq<Proposal>)
    ensures PendingProposals(proposals) == 0 <==> forall p :: 0 <= p < |proposals| ==> proposals[p].status != Pending
  {
    if proposals != [] {
      PendingIsCounted(proposals[..|proposals| - 1]);
      assert forall p :: 0 <= p < |proposals| - 1 ==> proposals[..|proposals| - 1][p] == proposals[p];
    }
  }

  lemma {:induction false} LiveIsCounted(runs: seq<AgentRun>)
    requires forall r :: 0 <= r < |runs| ==> Terminal(runs[r].status)
    ensures LiveRuns(runs) == 0
  {
    if runs != [] {
      LiveIsCounted(runs[..|runs| - 1]);
    }
  }

  /** A stranded proposal is pending for ever: whatever is called afterwards, the kill switch
      never reports `settled` again. */
  lemma {:induction false} StrandedNeverSettles(s: Site, calls: seq<AgentCall>, q: nat)
    requires s.Valid() && IsStranded(s.agent, q)
    ensures IsStranded(Run(s, calls).agent, q) && !Settled(Run(s, calls).agent)
    decreases |calls|
  {
    hide Step, Db.Valid;
    if calls == [] {
      PendingIsCounted(s.agent.proposals);
    } else {
      StepSpares(s, calls[0], q);
      hide IsStranded, Settled;
      StrandedNeverSettles(Step(s, calls[0]), calls[1..], q);
    }
  }

  /** Somebody who may see every run. */
  const OPERATOR := Actor("operator", true, None)

  /** Switch off, and stop the first `n` runs. */
  function WindingDown(n: nat): seq<AgentCall> {
    [SetSwitch(false)] + seq(n, r requires 0 <= r < n => AgentCall.AbortRun(OPERATOR, r, 0))
  }

  ghost predicate NothingStranded(a: Agent) {
    forall q :: 0 <= q < |a.proposals| ==> !IsStranded(a, q)
  }

  /** One more run stopped: it is over, and so is everything that waited for it. */
  lemma StopOne(s: Site, n: nat)
    requires s.Valid() && n < |s.agent.runs| && NothingStranded(s.agent) && !s.agent.Enabled()
    requires forall r :: 0 <= r < n ==> Terminal(s.agent.runs[r].status)
    ensures var a := Step(s, AgentCall.AbortRun(OPERATOR, n, 0)).agent;
      && !a.Enabled() && NothingStranded(a) && |a.runs| == |s.agent.runs|
      && forall r :: 0 <= r <= n ==> Terminal(a.runs[r].status)
  {
    hide Db.Valid, IsStranded, Platform.Step;
    var a := s.agent;
    assert ViewRefusal(s.world.db, a, OPERATOR, n).None?;
    if !Terminal(a.runs[n].status) {
      forall q ensures IsStranded(Step(s, AgentCall.AbortRun(OPERATOR, n, 0)).agent, q) <==> IsStranded(a, q) {
        DroppingStrandsNothing(a, n, Aborted, 0, q);
      }
      assert |DropPending(a.proposals, n)| == |a.proposals|;
    }
  }

  lemma {:induction false} StopAll(s: Site, n: nat)
    requires s.Valid() && n <= |s.agent.runs| && NothingStranded(s.agent)
    ensures var a := Run(s, WindingDown(n)).agent;
      && !a.Enabled() && NothingStranded(a) && |a.runs| == |s.agent.runs|
      && forall r :: 0 <= r < n ==> Terminal(a.runs[r].status)
  {
    hide Db.Valid, Platform.Step;
    if n == 0 {
      assert WindingDown(0) == [SetSwitch(false)];
      OneStep(s, SetSwitch(false));
      assert Run(s, WindingDown(0)).agent == s.agent.(principal := Some(false));
      forall q ensures IsStranded(s.agent.(principal := Some(false)), q) <==> IsStranded(s.agent, q) {
      }
    } else {
      StopAll(s, n - 1);
      assert WindingDown(n) == WindingDown(n - 1) + [AgentCall.AbortRun(OPERATOR, n - 1, 0)];
      RunAppend(s, WindingDown(n - 1), AgentCall.AbortRun(OPERATOR, n - 1, 0));
      hide Step, Run, NothingStranded;
      StopOne(Run(s, WindingDown(n - 1)), n - 1);
    }
  }

  lemma OneStep(s: Site, c: AgentCall)
    requires s.Valid()
    ensures Run(s, [c]) == Step(s, c)
  {
    hide Step, Db.Valid;
    assert Run(s, [c]) == Run(Step(s, c), [c][1..]);
  }

  lemma {:induction false} RunAppend(s: Site, calls: seq<AgentCall>, c: AgentCall)
    requires s.Valid()
    ensures Run(s, calls + [c]) == Step(Run(s, calls), c)
    decreases |calls|
  {
    hide Step, Db.Valid;
    if calls == [] {
      assert calls + [c] == [c];
      OneStep(s, c);
    } else {
      assert (calls + [c])[1..] == calls[1..] + [c];
      RunAppend(Step(s, calls[0]), calls[1..], c);
    }
  }

  /** The kill switch can be brought to report `settled`, without turning it on again, if and
      only if no proposal is stranded. */
  lemma SettlesExactlyWhen(s: Site)
    requires s.Valid()
    ensures (exists calls :: SetSwitch(true) !in calls && Settled(Run(s, calls).agent)) <==> NothingStranded(s.agent)
  {
    hide Step, Db.Valid;
    if NothingStranded(s.agent) {
      var n := |s.agent.runs|;
      StopAll(s, n);
      var a := Run(s, WindingDown(n)).agent;
      LiveIsCounted(a.runs);
      RestIsDecided(Run(s, WindingDown(n)));
      assert SetSwitch(true) !in WindingDown(n) && Settled(Run(s, WindingDown(n)).agent);
    } else {
      var q :| 0 <= q < |s.agent.proposals| && IsStranded(s.agent, q);
      forall calls ensures !Settled(Run(s, calls).agent) {
        StrandedNeverSettles(s, calls, q);
      }
    }
  }

  lemma RestIsDecided(s: Site)
    requires s.Valid() && NothingStranded(s.agent)
    requires forall r :: 0 <= r < |s.agent.runs| ==> Terminal(s.agent.runs[r].status)
    ensures PendingProposals(s.agent.proposals) == 0
  {
    PendingIsCounted(s.agent.proposals);
    var a := s.agent;
    forall p | 0 <= p < |a.proposals| ensures a.proposals[p].status != Pending {
      assert !IsStranded(a, p);
    }
  }

  // ── turns that land late ──

  /** Endings are final call by call, not statement by statement. A turn that comes back to a run
      which ended meanwhile writes over that ending: the status stays only when the turn says the
      same, the ending is dated anew, and a turn that merely pauses reopens the run. */
  lemma LateTurnOverwritesTheEnding(a: Agent, r: RunId, turn: Turn, now: Time)
    requires r < |a.runs| && RunSound(a.runs[r]) && Terminal(a.runs[r].status)
    ensures var before := a.runs[r]; var after := RunTurn(a, r, turn, now).0.runs[r];
      && (after.status == before.status <==>
            (turn.TurnCompleted? && before.status == RunCompleted) ||
            (!turn.TurnCompleted? && Ends(turn) && before.status == RunFailed))
      && after.endedAt == (if Ends(turn) then Some(now) else before.endedAt)
      && (RunSound(after) <==> Ends(turn))
  {
    if turn.TurnPaused? {
      RecordedExactlyWhen(r, turn, now);
    }
    hide Recorded, RecordedPause;
  }
}
