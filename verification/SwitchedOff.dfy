/**
  What is left to happen once the agent is switched off (apps/api/src/agent/kill-switch.service.ts):
  people go on working, the agent only winds down.
 */
module SwitchedOff {
  import opened Wrappers
  import opened Database
  import opened Outside
  import opened AgentRuns
  import opened AgentApproval
  import opened AgentHistory
  import opened AgentMachine
  import Platform

  /** Runs only stop, proposals are only rejected, and nothing is added. */
  ghost predicate WindsDown(before: Agent, after: Agent) {
    && after.principal == Some(false)
    && |after.runs| == |before.runs| && |after.proposals| == |before.proposals|
    && (forall r :: 0 <= r < |before.runs| ==>
          after.runs[r].status == before.runs[r].status || after.runs[r].status in {RunFailed, Aborted, Expired})
    && (forall p :: 0 <= p < |before.proposals| ==>
          after.proposals[p].status == before.proposals[p].status ||
          (before.proposals[p].status == Pending && after.proposals[p].status == Rejected))
  }

  lemma {:induction false} FewerLiveRuns(before: seq<AgentRun>, after: seq<AgentRun>)
    requires |before| == |after|
    requires forall r :: 0 <= r < |before| ==> after[r].status == before[r].status || Terminal(after[r].status)
    ensures LiveRuns(after) <= LiveRuns(before)
  {
    if before != [] {
      FewerLiveRuns(before[..|before| - 1], after[..|after| - 1]);
    }
  }

  lemma {:induction false} FewerPending(before: seq<Proposal>, after: seq<Proposal>)
    requires |before| == |after|
    requires forall p :: 0 <= p < |before| ==> after[p].status == Pending ==> before[p].status == Pending
    ensures PendingProposals(after) <= PendingProposals(before)
  {
    if before != [] {
      FewerPending(before[..|before| - 1], after[..|after| - 1]);
    }
  }

  /** Winding down never raises what the switch's status counts, and so never unsettles it. */
  lemma WindingDownSettles(before: Agent, after: Agent)
    requires WindsDown(before, after)
    ensures LiveRuns(after.runs) + PendingProposals(after.proposals) <= LiveRuns(before.runs) + PendingProposals(before.proposals)
    ensures Settled(before) ==> Settled(after)
  {
    FewerLiveRuns(before.runs, after.runs);
    FewerPending(before.proposals, after.proposals);
  }

  lemma WindsDownTransitive(a: Agent, b: Agent, c: Agent)
    requires WindsDown(a, b) && WindsDown(b, c)
    ensures WindsDown(a, c)
  {
  }

  lemma {:induction false} ExpiryWindsDown(a: Agent, found: seq<RunId>, now: Time)
    requires a.principal == Some(false)
    requires forall i :: 0 <= i < |found| ==> found[i] < |a.runs|
    ensures WindsDown(a, ExpireAll(a, found, now))
    decreases |found|
  {
    if found != [] {
      ExpiryWindsDown(a, found[..|found| - 1], now);
      var before := ExpireAll(a, found[..|found| - 1], now);
      assert WindsDown(before, ExpireRun(before, found[|found| - 1], now));
      hide ExpireRun;
      WindsDownTransitive(a, before, ExpireAll(a, found, now));
    }
  }

  lemma ResumptionWindsDown(a: Agent, r: nat, turn: Turn, now: Time)
    requires a.principal == Some(false)
    ensures WindsDown(a, AgentRuns.ExecuteRun(a, r, turn, now).0) && ResumeRun(a, r, turn, now).0 == a
  {
  }

  /** With the switch off, no agent call reaches the platform's tables, its ledger, the tenant
      or ServiceNow. */
  lemma AgentCallWindsDown(s: Site, c: AgentCall)
    requires s.Valid() && s.agent.principal == Some(false) && !c.ByHand? && c != SetSwitch(true)
    ensures Step(s, c).world == s.world && WindsDown(s.agent, Step(s, c).agent)
  {
    hide Db.Valid, AgentRuns.ExecuteRun, ResumeRun, ApproveAssign, ApproveLineItems, Platform.Step;
    match c
    case SweepRuns(found, now) =>
      if StaleBatch(s.agent.runs, now, found) {
        ExpiryWindsDown(s.agent, found, now);
      }
    case ExecuteRun(r, turn, now) => ResumptionWindsDown(s.agent, r, turn, now);
    case Reject(p, approver, turn, now) =>
      if Undecidable(s.agent, p).None? {
        ResumptionWindsDown(Decided(s.agent, p, Rejected, approver, now, s.agent.proposals[p].createdLineItemIds), s.agent.proposals[p].runId, turn, now);
      }
    case _ =>
  }

  /** The calls made by people, in order. */
  function HandCalls(calls: seq<AgentCall>): seq<Platform.Call> {
    if calls == [] then []
    else (if calls[0].ByHand? then [calls[0].call] else []) + HandCalls(calls[1..])
  }

  /** Until somebody turns the switch back on, whatever is called: the platform moves exactly
      as the people's own calls move it, and the agent only winds down. */
  lemma {:induction false} SwitchedOffRun(s: Site, calls: seq<AgentCall>)
    requires s.Valid() && s.agent.principal == Some(false) && SetSwitch(true) !in calls
    ensures Run(s, calls).world == Platform.Run(s.world, HandCalls(calls))
    ensures WindsDown(s.agent, Run(s, calls).agent)
    decreases |calls|
  {
    hide Db.Valid, Platform.Step, Step;
    if calls != [] {
      var c := calls[0];
      var next := Step(s, c);
      HandCallStep(s, c);
      if !c.ByHand? {
        AgentCallWindsDown(s, c);
      }
      assert forall k :: k in calls[1..] ==> k in calls;
      SwitchedOffRun(next, calls[1..]);
      WindsDownTransitive(s.agent, next.agent, Run(s, calls).agent);
      if c.ByHand? {
        assert HandCalls(calls) == [c.call] + HandCalls(calls[1..]);
        assert HandCalls(calls)[1..] == HandCalls(calls[1..]);
      } else {
        assert HandCalls(calls) == HandCalls(calls[1..]);
      }
    }
  }

  lemma HandCallStep(s: Site, c: AgentCall)
    requires s.Valid()
    ensures c.ByHand? ==> Step(s, c) == s.(world := Platform.Step(s.world, c.call))
    ensures s.agent.principal == Some(false) ==> WindsDown(s.agent, s.agent)
  {
    hide Db.Valid, Platform.Step;
  }

  /** The switch's report stays settled, and what it counts never rises, while it is off. */
  lemma SettledStays(s: Site, calls: seq<AgentCall>)
    requires s.Valid() && s.agent.principal == Some(false) && SetSwitch(true) !in calls
    ensures var a := Run(s, calls).agent;
      && !a.Enabled()
      && LiveRuns(a.runs) + PendingProposals(a.proposals) <= LiveRuns(s.agent.runs) + PendingProposals(s.agent.proposals)
      && (Settled(s.agent) ==> Settled(a))
  {
    SwitchedOffRun(s, calls);
    WindingDownSettles(s.agent, Run(s, calls).agent);
  }
}
