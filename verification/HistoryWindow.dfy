/** How much of a conversation a run is given (apps/api/src/agent/ai-assist.service.ts, `inputFor`). */
module HistoryWindow {
  import opened Wrappers

  const MAX_HISTORY_TURNS: nat := 20
  const MAX_HISTORY_CHARS: int := 20_000

  datatype Role = User | Assistant
  datatype ChatTurn = ChatTurn(role: Role, content: string)

  /** The input a run is built from: the turns kept, oldest first, and the announced omission. */
  datatype Input = Input(omitted: Option<nat>, turns: seq<ChatTurn>)

  function Chars(turns: seq<ChatTurn>): nat {
    if turns == [] then 0 else Chars(turns[1..]) + |turns[0].content|
  }

  function LastTurns(turns: seq<ChatTurn>, n: nat): seq<ChatTurn>
    requires n <= |turns|
  {
    turns[|turns| - n..]
  }

  /** The last `n` turns fit: within the count, and within the characters or alone. */
  predicate Fits(turns: seq<ChatTurn>, n: nat) {
    && n <= |turns| && n <= MAX_HISTORY_TURNS
    && (n <= 1 || Chars(LastTurns(turns, n)) <= MAX_HISTORY_CHARS)
  }

  lemma LongerWeighsMore(turns: seq<ChatTurn>, n: nat)
    requires n < |turns|
    ensures Chars(LastTurns(turns, n + 1)) == Chars(LastTurns(turns, n)) + |turns[|turns| - 1 - n].content|
  {
    assert LastTurns(turns, n + 1)[1..] == LastTurns(turns, n);
  }

  /** What fits still fits when shortened. */
  lemma {:induction false} ShorterFits(turns: seq<ChatTurn>, n: nat, m: nat)
    requires Fits(turns, n) && m <= n
    ensures Fits(turns, m)
    decreases n - m
  {
    if m < n {
      ShorterFits(turns, n, m + 1);
      LongerWeighsMore(turns, m);
    }
  }

  /** Where one more turn does not fit, nothing longer does. */
  lemma StoppedIsLongest(turns: seq<ChatTurn>, n: nat)
    requires 1 <= n && Fits(turns, n)
    requires n < |turns| && n < MAX_HISTORY_TURNS ==>
      MAX_HISTORY_CHARS - Chars(LastTurns(turns, n)) - |turns[|turns| - 1 - n].content| < 0
    ensures forall k :: 1 <= k ==> (Fits(turns, k) <==> k <= n)
  {
    forall k | 1 <= k ensures Fits(turns, k) <==> k <= n {
      if k <= n {
        ShorterFits(turns, n, k);
      } else if Fits(turns, k) {
        ShorterFits(turns, k, n + 1);
        LongerWeighsMore(turns, n);
      }
    }
  }

  /** What the query returns: the newest turns first, one more than the cap. */
  function Newest(turns: seq<ChatTurn>): seq<ChatTurn> {
    var n := if |turns| < MAX_HISTORY_TURNS + 1 then |turns| else MAX_HISTORY_TURNS + 1;
    seq(n, i requires 0 <= i < n => turns[|turns| - 1 - i])
  }

  function Backwards(turns: seq<ChatTurn>): seq<ChatTurn> {
    seq(|turns|, i requires 0 <= i < |turns| => turns[|turns| - 1 - i])
  }

  /** The newest turns turned round are the last turns. */
  lemma KeptIsTheLastTurns(turns: seq<ChatTurn>, kept: seq<ChatTurn>)
    requires |kept| <= |Newest(turns)| && forall i :: 0 <= i < |kept| ==> kept[i] == Newest(turns)[i]
    ensures |kept| <= |turns| && Backwards(kept) == LastTurns(turns, |kept|)
    ensures |Newest(turns)| == if |turns| <= MAX_HISTORY_TURNS + 1 then |turns| else MAX_HISTORY_TURNS + 1
  {
  }

  predicate HasQuestion(turns: seq<ChatTurn>) {
    exists i :: 0 <= i < |Newest(turns)| && Newest(turns)[i].role == User
  }

  /** The conversation's turns, oldest first, as one run is given them: the longest most recent
      stretch that fits, and an announced omission exactly when something was left out. The
      announced number is exact if and only if there are no more turns than the query looks at. */
  method InputFor(turns: seq<ChatTurn>) returns (input: Result<Input>)
    ensures input.Err? <==> !HasQuestion(turns)
    ensures input.Err? ==> input.error == Unavailable
    ensures input.Ok? ==>
      && 1 <= |input.value.turns| <= |turns|
      && input.value.turns == LastTurns(turns, |input.value.turns|)
      && (forall n :: 1 <= n ==> (Fits(turns, n) <==> n <= |input.value.turns|))
      && (input.value.omitted.Some? <==> |input.value.turns| < |turns|)
      && (input.value.omitted.Some? ==>
            && input.value.omitted.value == (if |turns| <= 21 then |turns| else 21) - |input.value.turns|
            && (input.value.omitted.value == |turns| - |input.value.turns| <==> |turns| <= 21))
  {
    var rows := Newest(turns);
    var asked := FindQuestion(rows);
    if !asked {
      return Err(Unavailable);
    }
    var kept: seq<ChatTurn> := [];
    var budget := MAX_HISTORY_CHARS;
    var n := 0;
    while n < |rows| && n < MAX_HISTORY_TURNS && !(|kept| > 0 && budget - |rows[n].content| < 0)
      invariant n == |kept| <= |rows| && n <= MAX_HISTORY_TURNS
      invariant forall i :: 0 <= i < n ==> kept[i] == rows[i]
      invariant budget == MAX_HISTORY_CHARS - Chars(LastTurns(turns, n))
      invariant Fits(turns, n)
    {
      LongerWeighsMore(turns, n);
      kept := kept + [rows[n]];
      budget := budget - |rows[n].content|;
      n := n + 1;
    }
    StoppedIsLongest(turns, n);
    hide Fits, Chars;
    var dropped := |rows| - |kept|;
    KeptIsTheLastTurns(turns, kept);
    hide LastTurns, Newest, HasQuestion;
    var window := Backwards(kept);
    return Ok(Input(if dropped > 0 then Some(dropped) else None, window));
  }

  method FindQuestion(rows: seq<ChatTurn>) returns (found: bool)
    ensures found <==> exists i :: 0 <= i < |rows| && rows[i].role == User
  {
    for i := 0 to |rows|
      invariant forall k :: 0 <= k < i ==> rows[k].role != User
    {
      if rows[i].role == User {
        return true;
      }
    }
    return false;
  }
}
