/**
  A counter that is read below a limit and incremented later, with other calls in
  between: how far past the limit it can run.
 */
module CheckThenAct {

  /** The counter, the calls that have read it and not yet written, and the increments
      somebody forced past the check. */
  datatype Counter = Counter(count: int, waiting: nat, forced: nat)

  /** `Admit` reads the counter and goes ahead only below the limit; `Act` is a waiting call's
      increment, `Withdraw` its giving up; `Force` increments without asking. */
  datatype Move = Admit | Act | Withdraw | Force | Idle

  function Step(s: Counter, limit: int, m: Move): Counter {
    match m
    case Admit => if s.count < limit then s.(waiting := s.waiting + 1) else s
    case Act => if s.waiting > 0 then s.(count := s.count + 1, waiting := s.waiting - 1) else s
    case Withdraw => if s.waiting > 0 then s.(waiting := s.waiting - 1) else s
    case Force => s.(count := s.count + 1, forced := s.forced + 1)
    case Idle => s
  }

  function Run(s: Counter, limit: int, moves: seq<Move>): Counter {
    if moves == [] then s else Step(Run(s, limit, moves[..|moves| - 1]), limit, moves[|moves| - 1])
  }

  /** No more than `k` calls ever sit between the read and the increment. */
  ghost predicate Crowd(s: Counter, limit: int, moves: seq<Move>, k: nat) {
    forall n :: 0 <= n <= |moves| ==> Run(s, limit, moves[..n]).waiting <= k
  }

  predicate Bounded(s: Counter, limit: int, k: nat) {
    s.count + s.waiting <= limit + s.forced + k - 1
  }

  lemma StepStaysBounded(s: Counter, limit: int, m: Move, k: nat)
    requires Bounded(s, limit, k) && Step(s, limit, m).waiting <= k
    ensures Bounded(Step(s, limit, m), limit, k)
  {
  }

  /** A counter that starts at or below its limit ends at most `k - 1` past it, plus
      whatever was forced; with one call at a time it never passes it unforced. */
  lemma {:induction false} RunStaysBounded(s: Counter, limit: int, moves: seq<Move>, k: nat)
    requires 1 <= k && s.waiting == 0 && s.forced == 0 && s.count <= limit
    requires Crowd(s, limit, moves, k)
    ensures Bounded(Run(s, limit, moves), limit, k)
    ensures Run(s, limit, moves).count <= limit + Run(s, limit, moves).forced + k - 1
  {
    if moves != [] {
      var before := moves[..|moves| - 1];
      assert forall n :: 0 <= n <= |before| ==> moves[..n] == before[..n];
      RunStaysBounded(s, limit, before, k);
      assert moves[..|moves|] == moves;
      StepStaysBounded(Run(s, limit, before), limit, moves[|moves| - 1], k);
    }
  }

  lemma {:induction false} RunFromFront(s: Counter, limit: int, m: Move, moves: seq<Move>)
    ensures Run(s, limit, [m] + moves) == Run(Step(s, limit, m), limit, moves)
  {
    if moves == [] {
      assert [m][..0] == [] && [m] + moves == [m];
    } else {
      var init, last := moves[..|moves| - 1], moves[|moves| - 1];
      assert ([m] + moves)[..|moves|] == [m] + init;
      RunFromFront(s, limit, m, init);
    }
  }

  lemma NoMoves(s: Counter, limit: int, k: nat)
    ensures Run(s, limit, []) == s && (Crowd(s, limit, [], k) <==> s.waiting <= k)
  {
    var none: seq<Move> := [];
    assert none[..0] == none;
    if Crowd(s, limit, none, k) {
      assert Run(s, limit, none[..0]).waiting <= k;
    }
  }

  /** The crowd is bounded from the front: now, and after the first move. */
  lemma CrowdFromFront(s: Counter, limit: int, m: Move, moves: seq<Move>, k: nat)
    ensures Crowd(s, limit, [m] + moves, k) <==> s.waiting <= k && Crowd(Step(s, limit, m), limit, moves, k)
  {
    var all := [m] + moves;
    assert all[..0] == [] && Run(s, limit, []) == s;
    forall n | 0 <= n <= |moves| ensures Run(s, limit, all[..n + 1]) == Run(Step(s, limit, m), limit, moves[..n]) {
      assert all[..n + 1] == [m] + moves[..n];
      RunFromFront(s, limit, m, moves[..n]);
    }
    hide Run, Step;
    if s.waiting <= k && Crowd(Step(s, limit, m), limit, moves, k) {
      forall n | 0 <= n <= |all| ensures Run(s, limit, all[..n]).waiting <= k {
        if n > 0 {
          assert Run(s, limit, all[..(n - 1) + 1]) == Run(Step(s, limit, m), limit, moves[..n - 1]);
        }
      }
    }
    if Crowd(s, limit, all, k) {
      forall n | 0 <= n <= |moves| ensures Run(Step(s, limit, m), limit, moves[..n]).waiting <= k {
        assert Run(s, limit, all[..n + 1]).waiting <= k;
      }
      assert Run(s, limit, all[..0]).waiting <= k;
    }
  }

  function Times(m: Move, n: nat): seq<Move> {
    seq(n, _ => m)
  }

  lemma OneMoreTime(m: Move, n: nat)
    requires n > 0
    ensures Times(m, n) == [m] + Times(m, n - 1)
  {
  }

  /** `k` calls all read, then all act. */
  function Stampede(k: nat): seq<Move> {
    Times(Admit, k) + Times(Act, k)
  }

  lemma {:induction false} EveryoneReads(s: Counter, limit: int, k: nat)
    requires s.count < limit
    ensures Run(s, limit, Times(Admit, k)) == s.(waiting := s.waiting + k)
  {
    if k > 0 {
      EveryoneReads(s, limit, k - 1);
      assert Times(Admit, k)[..k - 1] == Times(Admit, k - 1);
    }
  }

  lemma {:induction false} EveryoneActs(s: Counter, limit: int, k: nat, n: nat)
    requires s.count < limit && s.waiting == 0 && n <= k
    ensures Run(s, limit, Times(Admit, k) + Times(Act, n)) == s.(count := s.count + n, waiting := k - n)
  {
    var admits := Times(Admit, k);
    var moves := admits + Times(Act, n);
    if n == 0 {
      EveryoneReads(s, limit, k);
      assert moves == admits;
    } else {
      EveryoneActs(s, limit, k, n - 1);
      assert moves[..|moves| - 1] == admits + Times(Act, n - 1);
    }
  }

  /** The bound is met: from one below the limit, `k` calls reading before any of them acts
      leave the counter exactly `k - 1` past it. */
  lemma TheBoundIsReached(limit: int, k: nat)
    requires 1 <= k
    ensures Crowd(Counter(limit - 1, 0, 0), limit, Stampede(k), k)
    ensures Run(Counter(limit - 1, 0, 0), limit, Stampede(k)) == Counter(limit + k - 1, 0, 0)
  {
    var start := Counter(limit - 1, 0, 0);
    EveryoneActs(start, limit, k, k);
    forall n | 0 <= n <= |Stampede(k)| ensures Run(start, limit, Stampede(k)[..n]).waiting <= k {
      if n <= k {
        EveryoneReads(start, limit, n);
        assert Stampede(k)[..n] == Times(Admit, n);
      } else {
        EveryoneActs(start, limit, k, n - k);
        assert Stampede(k)[..n] == Times(Admit, k) + Times(Act, n - k);
      }
    }
  }
}
