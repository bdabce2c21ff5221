/**
  Erasing the agent tables from a run leaves a run of the platform alone; and what each
  proposal put into that run is exactly what a person approved.
 */
module Provenance {
  import opened Wrappers
  import opened Database
  import opened Outside
  import opened AgentRuns
  import opened AgentApproval
  import opened AgentMachine
  import Assign
  import RequestService
  import Platform

  /** A platform call, and the proposal it was made for; `acted` when it went through, and then
      the line it made, if it made one. */
  datatype Entry = Entry(call: Platform.Call, proposal: Option<ProposalId>, acted: bool, line: Option<LineId>)

  /** The line creations an approval of `dtos` made, as platform calls. */
  function AddCalls(r: RequestId, dtos: seq<RequestService.LineDto>, n: nat, approver: Actor): seq<Platform.Call>
    requires n <= |dtos|
  {
    seq(n, i requires 0 <= i < n => Platform.AddLine(r, dtos[i], approver))
  }

  /** Those calls as entries for proposal `p`, with the lines they made. */
  function ActedOn(calls: seq<Platform.Call>, p: ProposalId, created: seq<LineId>): seq<Entry>
    requires |created| == |calls|
  {
    seq(|calls|, i requires 0 <= i < |calls| => Entry(calls[i], Some(p), true, Some(created[i])))
  }

  /** The platform calls one call of the combined machine makes. */
  function Trace(s: Site, c: AgentCall): seq<Entry>
    requires s.Valid()
  {
    match c
    case ByHand(call) => [Entry(call, None, true, None)]
    case Approve(p, approver, o) =>
      if !s.agent.Enabled() || Undecidable(s.agent, p).Some? then []
      else if s.agent.proposals[p].kind == AssignOne then
        if s.agent.proposals[p].payload.lineItemId.None? then []
        else
          var call := AssignCallOf(s.agent, p, approver);
          [Entry(Platform.AssignLine(call, o.assign), Some(p), Assign.Outcome(s.world, call, o.assign).1.Done?, None)]
      else if PayloadRefusal(s.world.db, s.agent, p).Some? then []
      else
        var r := s.agent.runs[s.agent.proposals[p].runId].requestId.value;
        var dtos := LineDtos(s.world.db, s.agent, p);
        var created := CreateLines(s.world.db, r, dtos, |dtos|, approver, o.failsAt).1;
        ActedOn(AddCalls(r, dtos, |created|, approver), p, created)
    case _ => []
  }

  function CallsOf(entries: seq<Entry>): seq<Platform.Call> {
    seq(|entries|, i requires 0 <= i < |entries| => entries[i].call)
  }

  /** The lines created are the platform calls that created them, one after the other. */
  lemma {:induction false} CreationIsARun(w: World, r: RequestId, dtos: seq<RequestService.LineDto>, n: nat, approver: Actor, failsAt: nat)
    requires w.db.Valid() && n <= |dtos|
    ensures var (db, created, error) := CreateLines(w.db, r, dtos, n, approver, failsAt);
      Platform.Run(w, AddCalls(r, dtos, |created|, approver)) == w.(db := db)
    decreases n
  {
    hide Db.Valid, RequestService.AddLine;
    if n > 0 {
      CreationIsARun(w, r, dtos, n - 1, approver, failsAt);
      var (before, created, error) := CreateLines(w.db, r, dtos, n - 1, approver, failsAt);
      if error.None? && n - 1 != failsAt {
        var call := Platform.AddLine(r, dtos[n - 1], approver);
        RefusedAddChangesNothing(before, r, dtos[n - 1], approver);
        Platform.OneMoreCall(w, AddCalls(r, dtos, n - 1, approver), call);
        OneMoreAdd(r, dtos, n, approver);
        hide Platform.Run, AddCalls;
      }
    }
  }

  lemma OneMoreAdd(r: RequestId, dtos: seq<RequestService.LineDto>, n: nat, approver: Actor)
    requires 0 < n <= |dtos|
    ensures AddCalls(r, dtos, n, approver) == AddCalls(r, dtos, n - 1, approver) + [Platform.AddLine(r, dtos[n - 1], approver)]
  {
  }

  /** Each of them succeeded, where it stood in that run, and made the line it reports. */
  lemma {:induction false} CreationsSucceed(w: World, r: RequestId, dtos: seq<RequestService.LineDto>, n: nat, approver: Actor, failsAt: nat, k: nat)
    requires w.db.Valid() && n <= |dtos| && k < |CreateLines(w.db, r, dtos, n, approver, failsAt).1|
    ensures RequestService.AddLine(Platform.Run(w, AddCalls(r, dtos, k, approver)).db, r, dtos[k], approver).1
         == Ok(CreateLines(w.db, r, dtos, n, approver, failsAt).1[k])
    decreases n
  {
    hide Db.Valid, RequestService.AddLine, Platform.Run;
    var (before, created, error) := CreateLines(w.db, r, dtos, n - 1, approver, failsAt);
    if k < |created| {
      CreationsSucceed(w, r, dtos, n - 1, approver, failsAt, k);
    } else {
      CreationIsARun(w, r, dtos, n - 1, approver, failsAt);
    }
  }

  lemma RefusedAddChangesNothing(db: Db, r: RequestId, dto: RequestService.LineDto, approver: Actor)
    requires db.Valid()
    ensures RequestService.AddLine(db, r, dto, approver).1.Err? ==> RequestService.AddLine(db, r, dto, approver).0 == db
  {
    hide Db.Valid;
  }

  /** One call of the combined machine moves the platform exactly as its trace does. */
  lemma StepIsItsTrace(s: Site, c: AgentCall)
    requires s.Valid()
    ensures Step(s, c).world == Platform.Run(s.world, CallsOf(Trace(s, c)))
  {
    hide Db.Valid, Platform.Step, Assign.Outcome, CreateLines, LineDtos, PayloadRefusal;
    match c
    case ByHand(call) =>
      assert CallsOf(Trace(s, c)) == [call] && [call][1..] == [];
      Platform.OneCall(s.world, call);
    case Approve(p, approver, o) =>
      if s.agent.Enabled() && Undecidable(s.agent, p).None? {
        ApprovalIsItsTrace(s, p, approver, o);
      }
    case _ =>
  }

  lemma ApprovalIsItsTrace(s: Site, p: ProposalId, approver: Actor, o: ApprovalOracle)
    requires s.Valid() && s.agent.Enabled() && Undecidable(s.agent, p).None?
    ensures AgentApproval.Approve(s, p, approver, o).0.world == Platform.Run(s.world, CallsOf(Trace(s, AgentCall.Approve(p, approver, o))))
  {
    hide Db.Valid, Assign.Outcome, CreateLines, LineDtos, ResumeRun, Decided;
    var a := s.agent;
    var trace := Trace(s, AgentCall.Approve(p, approver, o));
    if a.proposals[p].kind == AssignOne {
      if a.proposals[p].payload.lineItemId.Some? {
        var call := Platform.AssignLine(AssignCallOf(a, p, approver), o.assign);
        assert CallsOf(trace) == [call];
        Platform.OneCall(s.world, call);
      }
    } else if PayloadRefusal(s.world.db, a, p).None? {
      var r := a.runs[a.proposals[p].runId].requestId.value;
      var dtos := LineDtos(s.world.db, a, p);
      CreationIsARun(s.world, r, dtos, |dtos|, approver, o.failsAt);
      var created := CreateLines(s.world.db, r, dtos, |dtos|, approver, o.failsAt).1;
      assert CallsOf(trace) == AddCalls(r, dtos, |created|, approver);
    }
  }

  /** Every platform call a run of the combined machine makes, in order. */
  ghost function Log(s: Site, calls: seq<AgentCall>): seq<Entry>
    requires s.Valid()
    decreases |calls|
  {
    if calls == [] then [] else Trace(s, calls[0]) + Log(Step(s, calls[0]), calls[1..])
  }

  /** Erasure: forget the agent tables, and what is left is a run of the platform. */
  lemma {:induction false} ErasureLeavesAPlatformRun(s: Site, calls: seq<AgentCall>)
    requires s.Valid()
    ensures Run(s, calls).world == Platform.Run(s.world, CallsOf(Log(s, calls)))
    decreases |calls|
  {
    hide Db.Valid, Step, Trace, Platform.Step;
    if calls != [] {
      var next := Step(s, calls[0]);
      StepIsItsTrace(s, calls[0]);
      ErasureLeavesAPlatformRun(next, calls[1..]);
      Platform.RunConcat(s.world, CallsOf(Trace(s, calls[0])), CallsOf(Log(next, calls[1..])));
      assert CallsOf(Log(s, calls)) == CallsOf(Trace(s, calls[0])) + CallsOf(Log(next, calls[1..]));
    }
  }

  /** The calls that went through for one proposal. */
  function Credits(log: seq<Entry>, p: ProposalId): seq<Entry> {
    if log == [] then []
    else (if log[0].acted && log[0].proposal == Some(p) then [log[0]] else []) + Credits(log[1..], p)
  }

  lemma {:induction false} CreditsConcat(a: seq<Entry>, b: seq<Entry>, p: ProposalId)
    ensures Credits(a + b, p) == Credits(a, p) + Credits(b, p)
  {
    if a == [] {
      assert a + b == b;
    } else {
      assert (a + b)[1..] == a[1..] + b;
      CreditsConcat(a[1..], b, p);
    }
  }

  lemma {:induction false} CreditsOfActed(calls: seq<Platform.Call>, p: ProposalId, created: seq<LineId>, q: ProposalId)
    requires |created| == |calls|
    ensures Credits(ActedOn(calls, p, created), q) == if p == q then ActedOn(calls, p, created) else []
  {
    if calls != [] {
      assert ActedOn(calls, p, created)[1..] == ActedOn(calls[1..], p, created[1..]);
      CreditsOfActed(calls[1..], p, created[1..], q);
    }
  }

  // ── the log tells the truth ──

  /** What an entry claims of the call it records, made on `w`: an assign that acted assigned,
      and a line that was made is the one reported. */
  predicate Holds(w: World, e: Entry)
    requires w.db.Valid()
  {
    && (e.acted && e.call.AssignLine? && e.proposal.Some? ==> Assign.Outcome(w, e.call.assignCall, e.call.answers).1.Done?)
    && (e.line.Some? ==>
          e.call.AddLine? && RequestService.AddLine(w.db, e.call.requestId, e.call.lineDto, e.call.actor).1 == Ok(e.line.value))
  }

  ghost predicate HoldsAt(w: World, log: seq<Entry>, n: nat)
    requires w.db.Valid() && n < |log|
  {
    Holds(Platform.Run(w, CallsOf(log[..n])), log[n])
  }

  /** Every entry holds where it stands: on the platform as the calls before it left it. */
  ghost predicate Truthful(w: World, log: seq<Entry>)
    requires w.db.Valid()
  {
    forall n :: 0 <= n < |log| ==> HoldsAt(w, log, n)
  }

  lemma EarlierHolds(w: World, first: seq<Entry>, second: seq<Entry>, n: nat)
    requires w.db.Valid() && n < |first| && HoldsAt(w, first, n)
    ensures HoldsAt(w, first + second, n)
  {
    hide Platform.Run, Holds, CallsOf, Db.Valid;
    assert (first + second)[..n] == first[..n] && (first + second)[n] == first[n];
  }

  lemma LaterHolds(w: World, first: seq<Entry>, second: seq<Entry>, k: nat)
    requires w.db.Valid() && k < |second| && HoldsAt(Platform.Run(w, CallsOf(first)), second, k)
    ensures HoldsAt(w, first + second, |first| + k)
  {
    hide Platform.Run, Holds, CallsOf, Db.Valid;
    CutAt(first, second, k);
    CallsOfConcat(first, second[..k]);
    Platform.RunConcat(w, CallsOf(first), CallsOf(second[..k]));
  }

  lemma CutAt(first: seq<Entry>, second: seq<Entry>, k: nat)
    requires k < |second|
    ensures (first + second)[..|first| + k] == first + second[..k] && (first + second)[|first| + k] == second[k]
  {
  }

  lemma TruthfulConcat(w: World, first: seq<Entry>, second: seq<Entry>)
    requires w.db.Valid() && Truthful(w, first) && Truthful(Platform.Run(w, CallsOf(first)), second)
    ensures Truthful(w, first + second)
  {
    hide Platform.Run, CallsOf, HoldsAt, Db.Valid;
    forall n | 0 <= n < |first + second| ensures HoldsAt(w, first + second, n) {
      if n < |first| {
        EarlierHolds(w, first, second, n);
      } else {
        LaterHolds(w, first, second, n - |first|);
      }
    }
  }

  lemma CallsOfConcat(first: seq<Entry>, second: seq<Entry>)
    ensures CallsOf(first + second) == CallsOf(first) + CallsOf(second)
  {
  }

  lemma CreationsAreTruthful(w: World, r: RequestId, dtos: seq<RequestService.LineDto>, approver: Actor, failsAt: nat, p: ProposalId)
    requires w.db.Valid()
    ensures var created := CreateLines(w.db, r, dtos, |dtos|, approver, failsAt).1;
      Truthful(w, ActedOn(AddCalls(r, dtos, |created|, approver), p, created))
  {
    hide Platform.Run, RequestService.AddLine, Db.Valid, CreateLines;
    var created := CreateLines(w.db, r, dtos, |dtos|, approver, failsAt).1;
    var log := ActedOn(AddCalls(r, dtos, |created|, approver), p, created);
    forall n | 0 <= n < |log| ensures HoldsAt(w, log, n) {
      CreationsSucceed(w, r, dtos, |dtos|, approver, failsAt, n);
      assert CallsOf(log[..n]) == AddCalls(r, dtos, n, approver);
    }
  }

  lemma OneEntryIsTruthful(w: World, e: Entry)
    requires w.db.Valid() && Holds(w, e)
    ensures Truthful(w, [e])
  {
    hide Holds, Db.Valid;
    assert CallsOf([e][..0]) == [];
    assert Platform.Run(w, []) == w;
  }

  lemma TraceIsTruthful(s: Site, c: AgentCall)
    requires s.Valid()
    ensures Truthful(s.world, Trace(s, c))
  {
    hide Db.Valid, Assign.Outcome, CreateLines, LineDtos, Platform.Run, ActedOn, AddCalls;
    match c
    case ByHand(call) => OneEntryIsTruthful(s.world, Entry(call, None, true, None));
    case Approve(p, approver, o) =>
      if s.agent.Enabled() && Undecidable(s.agent, p).None? {
        if s.agent.proposals[p].kind == AssignOne {
          if s.agent.proposals[p].payload.lineItemId.Some? {
            var call := AssignCallOf(s.agent, p, approver);
            OneEntryIsTruthful(s.world, Entry(Platform.AssignLine(call, o.assign), Some(p), Assign.Outcome(s.world, call, o.assign).1.Done?, None));
          }
        } else if PayloadRefusal(s.world.db, s.agent, p).None? {
          var r := s.agent.runs[s.agent.proposals[p].runId].requestId.value;
          CreationsAreTruthful(s.world, r, LineDtos(s.world.db, s.agent, p), approver, o.failsAt, p);
        }
      }
    case _ =>
  }

  /** Over every run: what the log says a call did, it did, on the platform as it then stood. */
  lemma {:induction false} LogIsTruthful(s: Site, calls: seq<AgentCall>)
    requires s.Valid()
    ensures Truthful(s.world, Log(s, calls))
    decreases |calls|
  {
    hide Db.Valid, Step, Trace, Truthful, Platform.Run;
    if calls == [] {
      NoEntries(s.world);
    } else {
      var next := Step(s, calls[0]);
      TraceIsTruthful(s, calls[0]);
      StepIsItsTrace(s, calls[0]);
      LogIsTruthful(next, calls[1..]);
      TruthfulConcat(s.world, Trace(s, calls[0]), Log(next, calls[1..]));
    }
  }

  lemma NoEntries(w: World)
    requires w.db.Valid()
    ensures Truthful(w, [])
  {
  }
}
