/** Agent calls and ordinary platform calls as one machine, and its runs. */
module AgentMachine {
  import opened Wrappers
  import opened Database
  import opened Outside
  import opened AgentRuns
  import opened AgentApproval
  import Platform

  datatype AgentCall =
    | StartRun(user: Actor, requestId: nat, profileUsable: bool, enqueued: bool, now: Time)
    | StartConversationRun(user: Actor, conversationId: string, about: Option<RequestId>, profileUsable: bool, enqueued: bool, now: Time)
    | ExecuteRun(runId: nat, turn: Turn, now: Time)
    | Approve(proposalId: nat, approver: Actor, answers: ApprovalOracle)
    | Reject(proposalId: nat, approver: Actor, turn: Turn, now: Time)
    | AbortRun(user: Actor, runId: nat, now: Time)
    | HideRun(user: Actor, runId: nat, now: Time)
    | UnhideRun(user: Actor, runId: nat)
    | SweepRuns(found: seq<RunId>, now: Time)
    | SetSwitch(enabled: bool)
    | ByHand(call: Platform.Call)

  /** The sweep only ever gets runs its query may return. */
  ghost function Step(s: Site, c: AgentCall): (after: Site)
    requires s.Valid()
    ensures after.Valid()
  {
    var a := s.agent;
    match c
    case StartRun(user, r, usable, enqueued, now) => s.(agent := AgentRuns.StartRun(s.world.db, a, user, r, usable, enqueued, now).0)
    case StartConversationRun(user, conversation, about, usable, enqueued, now) =>
      s.(agent := AgentRuns.StartConversationRun(a, user, conversation, about, usable, enqueued, now).0)
    case ExecuteRun(r, turn, now) => s.(agent := AgentRuns.ExecuteRun(a, r, turn, now).0)
    case Approve(p, approver, o) => AgentApproval.Approve(s, p, approver, o).0
    case Reject(p, approver, turn, now) => s.(agent := AgentApproval.Reject(a, p, approver, turn, now).0)
    case AbortRun(user, r, now) => s.(agent := AgentRuns.AbortRun(s.world.db, a, user, r, now).0)
    case HideRun(user, r, now) => s.(agent := AgentRuns.HideRun(s.world.db, a, user, r, now).0)
    case UnhideRun(user, r) => s.(agent := AgentRuns.UnhideRun(s.world.db, a, user, r).0)
    case SweepRuns(found, now) => if StaleBatch(a.runs, now, found) then s.(agent := ExpireAll(a, found, now)) else s
    case SetSwitch(enabled) => s.(agent := AgentRuns.SetSwitch(a, enabled))
    case ByHand(call) => s.(world := Platform.Step(s.world, call))
  }

  ghost function Run(s: Site, calls: seq<AgentCall>): (after: Site)
    requires s.Valid()
    ensures after.Valid()
    decreases |calls|
  {
    if calls == [] then s else Run(Step(s, calls[0]), calls[1..])
  }
}
