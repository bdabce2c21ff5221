/**
  The ceiling on what one run may do without a human (apps/api/src/agent/tool-registry.ts):
  counted from the recorded steps, checked before each autonomous call.
 */
module ToolBudget {
  import opened Wrappers
  import C = CheckThenAct

  const MAX_AUTONOMOUS_TOOL_CALLS: int := 25

  type RunId = nat

  datatype Tool = Tool(name: string, needsApproval: bool)

  /** One recorded tool call; a refused or broken one is not `ok`. */
  datatype ToolStep = ToolStep(runId: RunId, key: string, ok: bool)

  datatype BlastRadius = BlastRadius(used: nat, limit: int, exceeded: bool)

  /** Derived from `needsApproval`, so that a tool added later cannot be left out. */
  function AutonomousNames(tools: seq<Tool>): set<string> {
    set tool | tool in tools && !tool.needsApproval :: tool.name
  }

  function Used(steps: seq<ToolStep>, runId: RunId, names: set<string>): nat {
    if steps == [] then 0
    else
      var last := steps[|steps| - 1];
      Used(steps[..|steps| - 1], runId, names) + (if last.runId == runId && last.ok && last.key in names then 1 else 0)
  }

  function BlastRadiusOf(steps: seq<ToolStep>, runId: RunId, names: set<string>): BlastRadius {
    var used := Used(steps, runId, names);
    BlastRadius(used, MAX_AUTONOMOUS_TOOL_CALLS, used >= MAX_AUTONOMOUS_TOOL_CALLS)
  }

  /** A call that was let through and is executing; its step is recorded when it ends. */
  datatype Call = Call(runId: RunId, tool: Tool)

  datatype Ledger = Ledger(tools: seq<Tool>, steps: seq<ToolStep>, executing: seq<Call>)

  datatype Move = Ask(call: Call) | Record(index: nat, ok: bool) | Lose(index: nat)

  /** `capped`: a tool that needs approval passes; the others are counted first. */
  predicate LetThrough(s: Ledger, call: Call) {
    call.tool in s.tools &&
    (call.tool.needsApproval || !BlastRadiusOf(s.steps, call.runId, AutonomousNames(s.tools)).exceeded)
  }

  function Next(s: Ledger, m: Move): Ledger {
    match m
    case Ask(call) =>
      if LetThrough(s, call) then s.(executing := s.executing + [call])
      else s.(steps := s.steps + [ToolStep(call.runId, call.tool.name, false)])
    case Record(i, ok) =>
      if i < |s.executing| then
        s.(steps := s.steps + [ToolStep(s.executing[i].runId, s.executing[i].tool.name, ok)],
           executing := s.executing[..i] + s.executing[i + 1..])
      else s
    case Lose(i) => if i < |s.executing| then s.(executing := s.executing[..i] + s.executing[i + 1..]) else s
  }

  /** The autonomous calls of one run that are executing. */
  function Executing(calls: seq<Call>, runId: RunId, names: set<string>): nat {
    if calls == [] then 0
    else Executing(calls[1..], runId, names) + (if calls[0].runId == runId && calls[0].tool.name in names then 1 else 0)
  }

  lemma {:induction false} ExecutingConcat(a: seq<Call>, b: seq<Call>, runId: RunId, names: set<string>)
    ensures Executing(a + b, runId, names) == Executing(a, runId, names) + Executing(b, runId, names)
  {
    if a == [] {
      assert a + b == b;
    } else {
      assert (a + b)[1..] == a[1..] + b;
      ExecutingConcat(a[1..], b, runId, names);
    }
  }

  lemma ExecutingWithout(calls: seq<Call>, i: nat, runId: RunId, names: set<string>)
    requires i < |calls|
    ensures Executing(calls, runId, names) == Executing(calls[..i] + calls[i + 1..], runId, names) +
      (if calls[i].runId == runId && calls[i].tool.name in names then 1 else 0)
  {
    assert calls == calls[..i] + ([calls[i]] + calls[i + 1..]);
    ExecutingConcat(calls[..i], [calls[i]] + calls[i + 1..], runId, names);
    ExecutingConcat([calls[i]], calls[i + 1..], runId, names);
    ExecutingConcat(calls[..i], calls[i + 1..], runId, names);
  }

  function Abstract(s: Ledger, runId: RunId): C.Counter {
    var names := AutonomousNames(s.tools);
    C.Counter(Used(s.steps, runId, names), Executing(s.executing, runId, names), 0)
  }

  /** A tool's name says whether it is autonomous. */
  ghost predicate NamesAreKeys(tools: seq<Tool>) {
    forall a, b :: a in tools && b in tools && a.name == b.name ==> a == b
  }

  function Shadow(s: Ledger, m: Move, runId: RunId): C.Move {
    var names := AutonomousNames(s.tools);
    match m
    case Ask(call) => if LetThrough(s, call) && call.runId == runId && call.tool.name in names then C.Admit else C.Idle
    case Record(i, ok) =>
      if i < |s.executing| && s.executing[i].runId == runId && s.executing[i].tool.name in names
      then if ok then C.Act else C.Withdraw
      else C.Idle
    case Lose(i) =>
      if i < |s.executing| && s.executing[i].runId == runId && s.executing[i].tool.name in names then C.Withdraw else C.Idle
  }

  /** The counter of `runId` follows this move. */
  predicate Follows(s: Ledger, m: Move, runId: RunId) {
    Abstract(Next(s, m), runId) == C.Step(Abstract(s, runId), MAX_AUTONOMOUS_TOOL_CALLS, Shadow(s, m, runId))
  }

  lemma AskFollows(s: Ledger, call: Call, runId: RunId)
    requires NamesAreKeys(s.tools)
    ensures Follows(s, Ask(call), runId)
  {
    var names := AutonomousNames(s.tools);
    if LetThrough(s, call) {
      ExecutingConcat(s.executing, [call], runId, names);
      assert call.tool.name in names <==> !call.tool.needsApproval;
    } else {
      assert Next(s, Ask(call)).steps[..|s.steps|] == s.steps;
    }
    hide Executing;
  }

  lemma RecordFollows(s: Ledger, i: nat, ok: bool, runId: RunId)
    ensures Follows(s, Record(i, ok), runId)
  {
    if i < |s.executing| {
      ExecutingWithout(s.executing, i, runId, AutonomousNames(s.tools));
      assert Next(s, Record(i, ok)).steps[..|s.steps|] == s.steps;
    }
    hide Executing, AutonomousNames;
  }

  lemma LoseFollows(s: Ledger, i: nat, runId: RunId)
    ensures Follows(s, Lose(i), runId)
  {
    if i < |s.executing| {
      ExecutingWithout(s.executing, i, runId, AutonomousNames(s.tools));
    }
    hide Executing, Used, AutonomousNames;
  }

  lemma NextFollowsTheCounter(s: Ledger, m: Move, runId: RunId)
    requires NamesAreKeys(s.tools)
    ensures Follows(s, m, runId)
  {
    hide Follows;
    match m
    case Ask(call) => AskFollows(s, call, runId);
    case Record(i, ok) => RecordFollows(s, i, ok, runId);
    case Lose(i) => LoseFollows(s, i, runId);
  }

  function Run(s: Ledger, moves: seq<Move>): Ledger
    decreases |moves|
  {
    if moves == [] then s else Run(Next(s, moves[0]), moves[1..])
  }

  /** At most `k` autonomous calls of the run execute at once. */
  ghost predicate Crowd(s: Ledger, moves: seq<Move>, runId: RunId, k: nat)
    decreases |moves|
  {
    && Executing(s.executing, runId, AutonomousNames(s.tools)) <= k
    && (moves != [] ==> Crowd(Next(s, moves[0]), moves[1..], runId, k))
  }

  /** The schedule as the counter of `runId` sees it. */
  function Shadows(s: Ledger, moves: seq<Move>, runId: RunId): seq<C.Move>
    decreases |moves|
  {
    if moves == [] then [] else [Shadow(s, moves[0], runId)] + Shadows(Next(s, moves[0]), moves[1..], runId)
  }

  /** Refinement: tool calls under any schedule are a run of the counter, and as crowded. */
  lemma {:induction false} RunFollowsTheCounter(s: Ledger, moves: seq<Move>, runId: RunId, k: nat)
    requires NamesAreKeys(s.tools)
    ensures Run(s, moves).tools == s.tools
    ensures Abstract(Run(s, moves), runId) == C.Run(Abstract(s, runId), MAX_AUTONOMOUS_TOOL_CALLS, Shadows(s, moves, runId))
    ensures Crowd(s, moves, runId, k) <==> C.Crowd(Abstract(s, runId), MAX_AUTONOMOUS_TOOL_CALLS, Shadows(s, moves, runId), k)
    decreases |moves|
  {
    hide Shadow, C.Step, Used, Executing, LetThrough;
    if moves != [] {
      var next := Next(s, moves[0]);
      NextFollowsTheCounter(s, moves[0], runId);
      RunFollowsTheCounter(next, moves[1..], runId, k);
      C.RunFromFront(Abstract(s, runId), MAX_AUTONOMOUS_TOOL_CALLS, Shadow(s, moves[0], runId), Shadows(next, moves[1..], runId));
      C.CrowdFromFront(Abstract(s, runId), MAX_AUTONOMOUS_TOOL_CALLS, Shadow(s, moves[0], runId), Shadows(next, moves[1..], runId), k);
    } else {
      C.NoMoves(Abstract(s, runId), MAX_AUTONOMOUS_TOOL_CALLS, k);
    }
  }

  /** A run whose runtime keeps at most `k` calls going records at most 25 + k - 1 successful
      autonomous calls, and at most 25 when it makes them one at a time. */
  lemma AutonomousCallsStayBounded(tools: seq<Tool>, moves: seq<Move>, runId: RunId, k: nat)
    requires NamesAreKeys(tools) && 1 <= k && Crowd(Ledger(tools, [], []), moves, runId, k)
    ensures Used(Run(Ledger(tools, [], []), moves).steps, runId, AutonomousNames(tools)) <= 25 + k - 1
  {
    var s := Ledger(tools, [], []);
    RunFollowsTheCounter(s, moves, runId, k);
    hide Run, Crowd, Shadows;
    C.RunStaysBounded(Abstract(s, runId), MAX_AUTONOMOUS_TOOL_CALLS, Shadows(s, moves, runId), k);
  }

  lemma AskThenRecord(s: Ledger, call: Call, ok: bool)
    requires s.executing == []
    ensures Run(s, [Ask(call), Record(0, ok)]).steps ==
      s.steps + [ToolStep(call.runId, call.tool.name, ok && LetThrough(s, call))]
  {
    var moves := [Ask(call), Record(0, ok)];
    var asked := Next(s, Ask(call));
    assert moves[1..] == [Record(0, ok)] && [Record(0, ok)][1..] == [];
    assert Run(asked, [Record(0, ok)]) == Next(asked, Record(0, ok));
    assert Run(s, moves) == Run(asked, moves[1..]);
  }

  /** The registry object: the tools it was built with, each one capped. */
  class Registry {
    const tools: seq<Tool>
    const autonomousNames: set<string>
    var steps: seq<ToolStep>

    constructor (defined: seq<Tool>)
      ensures tools == defined && autonomousNames == AutonomousNames(defined) && steps == []
    {
      tools := defined;
      autonomousNames := AutonomousNames(defined);
      steps := [];
    }

    method CountSteps(runId: RunId) returns (used: nat)
      ensures used == Used(steps, runId, autonomousNames)
    {
      used := 0;
      for i := 0 to |steps|
        invariant used == Used(steps[..i], runId, autonomousNames)
      {
        assert steps[..i + 1][..i] == steps[..i];
        if steps[i].runId == runId && steps[i].ok && steps[i].key in autonomousNames {
          used := used + 1;
        }
      }
      assert steps[..|steps|] == steps;
    }

    /** One call made and recorded with nothing in between; `outcome` is what the tool did. */
    method Execute(tool: Tool, runId: RunId, outcome: bool) returns (refused: bool)
      requires autonomousNames == AutonomousNames(tools) && tool in tools
      modifies this`steps
      ensures refused <==> !old(LetThrough(Ledger(tools, steps, []), Call(runId, tool)))
      ensures steps == Run(old(Ledger(tools, steps, [])), [Ask(Call(runId, tool)), Record(0, outcome)]).steps
    {
      AskThenRecord(Ledger(tools, steps, []), Call(runId, tool), outcome);
      if !tool.needsApproval {
        var used := CountSteps(runId);
        if used >= MAX_AUTONOMOUS_TOOL_CALLS {
          steps := steps + [ToolStep(runId, tool.name, false)];
          return true;
        }
      }
      steps := steps + [ToolStep(runId, tool.name, outcome)];
      return false;
    }
  }
}
