/** Over every run: each line has followed one of the paths there are. */
module StageHistory {
  import opened Wrappers
  import opened Stages
  import opened Database
  import opened Outside
  import opened History
  import opened StageLaws
  import opened Platform
  import PlatformHistory

  /** After any calls, a line that was ever quoted is READY or ASSIGNED only after approval and then
      vendor; the one other way to READY is straight from REQUESTED; nothing follows ASSIGNED or
      CANCELLED; and the line stands where its timeline ends. */
  lemma LinesFollowPathsOverRuns(w: World, calls: seq<Call>, l: LineId)
    requires Sound(w.db) && w.db.Valid() && l in Run(w, calls).db.lines
    ensures var db := Run(w, calls).db; var path := Entered(db.events, l);
      && Contiguous(db.events, l)
      && db.lines[l].stage == (if path == [] then Requested else path[|path| - 1])
      && (forall i :: 0 <= i < |path| - 1 ==> path[i] != Assigned && path[i] != Cancelled)
      && (Ready in path || Assigned in path ==> [Ready] <= path || [Quoting, OpcoApproved, AwaitingVendor, Ready] <= path)
      && (db.lines[l].stage == Ready ==> path == [Ready] || path == [Quoting, OpcoApproved, AwaitingVendor, Ready])
      && (db.lines[l].stage == Assigned ==>
            path == [Ready, Assigned] || path == [Quoting, OpcoApproved, AwaitingVendor, Ready, Assigned])
  {
    hide Run, StatusAgrees, AssignsStand, GatesPassed, TimelineAgrees, Db.Valid, Contiguous;
    PlatformHistory.RunKeeps(w, calls);
    LinesFollowAPath(Run(w, calls).db, l);
    hide Sound;
    WhereAPathEnds(Entered(Run(w, calls).db.events, l));
    hide IsPath, Entered;
  }
}
