/** The platform and the agent services behind one door: any run of their methods is a run of the combined machine. */
module AgentSiteService {
  import opened Wrappers
  import opened Database
  import opened Outside
  import opened AgentRuns
  import opened AgentApproval
  import opened AgentMachine
  import AgentServices
  import ApprovalService
  import Platform
  import PlatformService

  class Service {
    const platform: PlatformService.Service
    const rows: AgentServices.AgentTables
    const killSwitch: AgentServices.KillSwitch
    const aiAssist: AgentServices.AiAssist
    const expiry: AgentServices.RunExpiry
    const approvals: ApprovalService.Service

    constructor (platform: PlatformService.Service, rows: AgentServices.AgentTables)
      requires platform.Wired()
      ensures this.platform == platform && this.rows == rows && Wired()
    {
      this.platform, this.rows := platform, rows;
      var killSwitch := new AgentServices.KillSwitch(rows);
      var aiAssist := new AgentServices.AiAssist(platform.db, rows, killSwitch);
      this.killSwitch, this.aiAssist := killSwitch, aiAssist;
      this.expiry := new AgentServices.RunExpiry(aiAssist);
      this.approvals := new ApprovalService.Service(platform.db, platform.vendors, rows, aiAssist, platform.requests, platform.assign);
    }

    predicate Wired() {
      && platform.Wired()
      && killSwitch.rows == rows
      && aiAssist.db == platform.db && aiAssist.rows == rows && aiAssist.killSwitch.rows == rows
      && expiry.aiAssist == aiAssist
      && approvals.db == platform.db && approvals.vendors == platform.vendors && approvals.rows == rows && approvals.Wired()
    }

    function State(): Site
      reads platform.db, platform.vendors, rows
    {
      Site(platform.State(), rows.State())
    }

    /** The calls that start, execute and resume runs, and the switch. */
    method PerformOnRuns(c: AgentCall)
      requires State().Valid() && Wired()
      requires c.StartRun? || c.StartConversationRun? || c.ExecuteRun? || c.SetSwitch?
      modifies rows
      ensures State() == Step(old(State()), c)
    {
      hide Db.Valid, AgentRuns.StartRun, AgentRuns.StartConversationRun, AgentRuns.ExecuteRun;
      match c {
        case StartRun(user, r, usable, enqueued, now) => var _ := aiAssist.StartRun(user, r, usable, enqueued, now);
        case StartConversationRun(user, conversation, about, usable, enqueued, now) =>
          var _ := aiAssist.StartConversationRun(user, conversation, about, usable, enqueued, now);
        case ExecuteRun(r, turn, now) => var _ := aiAssist.Execute(r, turn, now);
        case SetSwitch(enabled) => killSwitch.Set(enabled);
      }
    }

    /** The calls that end runs, or put ended ones out of sight. */
    method PerformOnEndings(c: AgentCall)
      requires State().Valid() && Wired()
      requires c.AbortRun? || c.HideRun? || c.UnhideRun? || c.SweepRuns?
      requires c.SweepRuns? ==> StaleBatch(rows.runs, c.now, c.found)
      modifies rows
      ensures State() == Step(old(State()), c)
    {
      hide Db.Valid, AgentRuns.AbortRun, AgentRuns.HideRun, AgentRuns.UnhideRun, ExpireAll;
      match c {
        case AbortRun(user, r, now) => var _ := aiAssist.Abort(user, r, now);
        case HideRun(user, r, now) => var _ := aiAssist.Hide(user, r, now);
        case UnhideRun(user, r) => var _ := aiAssist.Unhide(user, r);
        case SweepRuns(found, now) => var _ := expiry.Sweep(found, now);
      }
    }

    /** Any call, made on the services, is that call's step; a sweep gets what its query may return. */
    method Perform(c: AgentCall)
      requires State().Valid() && Wired()
      requires c.SweepRuns? ==> StaleBatch(rows.runs, c.now, c.found)
      modifies rows, platform.db, platform.vendors
      ensures State() == Step(old(State()), c)
    {
      hide Db.Valid, AgentApproval.Approve, AgentApproval.Reject, Platform.Step;
      match c {
        case Approve(p, approver, o) => var _ := approvals.ApproveProposal(p, approver, o);
        case Reject(p, approver, turn, now) => var _ := approvals.RejectProposal(p, approver, turn, now);
        case ByHand(call) => platform.Perform(call);
        case StartRun(_, _, _, _, _) => PerformOnRuns(c);
        case StartConversationRun(_, _, _, _, _, _) => PerformOnRuns(c);
        case ExecuteRun(_, _, _) => PerformOnRuns(c);
        case SetSwitch(_) => PerformOnRuns(c);
        case _ => PerformOnEndings(c);
      }
    }
  }
}
