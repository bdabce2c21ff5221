/**
  Figures about how people decide proposals (apps/api/src/agent/review-stats.service.ts).
 */
module ReviewStats {
  import opened Wrappers
  import opened Database
  import opened AgentRuns
  import AgentHistory

  const FAST_REVIEW_SECONDS: int := 30

  datatype DecidedRow = DecidedRow(status: ProposalStatus, approvedById: Option<string>, createdAt: Time, decidedAt: Time)

  datatype Tally = Tally(
    decided: nat,
    approved: nat,
    rejected: int,
    approvalRate: Option<real>,
    medianSecondsToDecide: Option<int>,
    fastDecisions: nat
  )

  datatype ReviewerStats = ReviewerStats(approverId: Option<string>, tally: Tally)

  /** Approval is what the person said, whatever the platform then did. */
  predicate IsApproval(row: DecidedRow) {
    row.status == Executed || row.status == ProposalFailed
  }

  /** Milliseconds to whole seconds, halves rounded up, never negative. */
  function SecondsToDecide(row: DecidedRow): int {
    var seconds := (row.decidedAt - row.createdAt + 500) / 1000;
    if seconds < 0 then 0 else seconds
  }

  function Seconds(rows: seq<DecidedRow>): seq<int> {
    seq(|rows|, i requires 0 <= i < |rows| => SecondsToDecide(rows[i]))
  }

  /** The share of approvals to three places, halves rounded up; nothing decided has no share. */
  function RateOf(approved: nat, decided: nat): Option<real> {
    if decided == 0 then None
    else Some(((approved as real / decided as real) * 1000.0 + 0.5).Floor as real / 1000.0)
  }

  function Approvals(rows: seq<DecidedRow>): nat {
    if rows == [] then 0
    else Approvals(rows[..|rows| - 1]) + (if IsApproval(rows[|rows| - 1]) then 1 else 0)
  }

  function FastOnes(rows: seq<DecidedRow>): nat {
    if rows == [] then 0
    else FastOnes(rows[..|rows| - 1]) + (if SecondsToDecide(rows[|rows| - 1]) < FAST_REVIEW_SECONDS then 1 else 0)
  }

  // ── the median ──

  predicate Ordered(s: seq<int>) {
    forall i, j :: 0 <= i < j < |s| ==> s[i] <= s[j]
  }

  function Insert(x: int, s: seq<int>): seq<int> {
    if s == [] || x <= s[0] then [x] + s else [s[0]] + Insert(x, s[1..])
  }

  function Sort(s: seq<int>): seq<int> {
    if s == [] then [] else Insert(s[0], Sort(s[1..]))
  }

  function MedianOf(values: seq<int>): Option<int> {
    var sorted := Sort(values);
    var middle := |sorted| / 2;
    if sorted == [] then None
    else if |sorted| % 2 == 1 then Some(sorted[middle])
    else Some((sorted[middle - 1] + sorted[middle] + 1) / 2)
  }

  lemma {:induction false} InsertKeeps(x: int, s: seq<int>)
    ensures multiset(Insert(x, s)) == multiset(s) + multiset{x}
    ensures forall v :: v in Insert(x, s) ==> v == x || v in s
  {
    if s == [] || x <= s[0] {
    } else {
      InsertKeeps(x, s[1..]);
      assert s == [s[0]] + s[1..];
    }
  }

  lemma {:induction false} InsertOrders(x: int, s: seq<int>)
    requires Ordered(s)
    ensures Ordered(Insert(x, s))
  {
    if s == [] || x <= s[0] {
    } else {
      InsertOrders(x, s[1..]);
      InsertKeeps(x, s[1..]);
      var rest := Insert(x, s[1..]);
      forall j | 0 <= j < |rest| ensures s[0] <= rest[j] {
        assert rest[j] == x || rest[j] in s[1..];
      }
    }
  }

  lemma {:induction false} SortOrders(s: seq<int>)
    ensures Ordered(Sort(s)) && multiset(Sort(s)) == multiset(s) && |Sort(s)| == |s|
  {
    if s != [] {
      SortOrders(s[1..]);
      InsertOrders(s[0], Sort(s[1..]));
      InsertKeeps(s[0], Sort(s[1..]));
      assert s == [s[0]] + s[1..];
    }
    assert |multiset(Sort(s))| == |multiset(s)|;
  }

  lemma SameSmallest(a: seq<int>, b: seq<int>)
    requires Ordered(a) && Ordered(b) && multiset(a) == multiset(b) && a != [] && b != []
    ensures a[0] == b[0]
  {
    assert a[0] in multiset(b) && b[0] in multiset(a);
    assert a[0] in b && b[0] in a;
  }

  lemma Tail(s: seq<int>)
    requires s != []
    ensures multiset(s[1..]) == multiset(s) - multiset{s[0]}
  {
    assert s == [s[0]] + s[1..];
  }

  lemma {:induction false} OneOrderedForm(a: seq<int>, b: seq<int>)
    requires Ordered(a) && Ordered(b) && multiset(a) == multiset(b)
    ensures a == b
  {
    assert |multiset(a)| == |multiset(b)|;
    if a != [] {
      SameSmallest(a, b);
      Tail(a);
      Tail(b);
      OneOrderedForm(a[1..], b[1..]);
      assert a == [a[0]] + a[1..] && b == [b[0]] + b[1..];
    }
  }

  /** The rows come in no promised order, and the median does not care. */
  lemma MedianIgnoresOrder(a: seq<int>, b: seq<int>)
    requires multiset(a) == multiset(b)
    ensures MedianOf(a) == MedianOf(b)
  {
    SortOrders(a);
    SortOrders(b);
    OneOrderedForm(Sort(a), Sort(b));
  }

  /** How many values a bound covers, from below or from above. */
  function Below(s: seq<int>, m: int): nat {
    if s == [] then 0 else (if s[0] <= m then 1 else 0) + Below(s[1..], m)
  }

  function Above(s: seq<int>, m: int): nat {
    if s == [] then 0 else (if s[0] >= m then 1 else 0) + Above(s[1..], m)
  }

  lemma {:induction false} InsertCounts(x: int, s: seq<int>, m: int)
    ensures Below(Insert(x, s), m) == Below(s, m) + (if x <= m then 1 else 0)
    ensures Above(Insert(x, s), m) == Above(s, m) + (if x >= m then 1 else 0)
  {
    if s == [] || x <= s[0] {
      assert Insert(x, s)[1..] == s;
    } else {
      assert Insert(x, s)[1..] == Insert(x, s[1..]);
      InsertCounts(x, s[1..], m);
    }
  }

  lemma {:induction false} SortCounts(s: seq<int>, m: int)
    ensures Below(Sort(s), m) == Below(s, m) && Above(Sort(s), m) == Above(s, m)
  {
    if s != [] {
      SortCounts(s[1..], m);
      InsertCounts(s[0], Sort(s[1..]), m);
    }
  }

  lemma {:induction false} OrderedCounts(s: seq<int>, m: int, k: nat)
    requires Ordered(s) && k <= |s|
    ensures (forall i :: 0 <= i < k ==> s[i] <= m) ==> Below(s, m) >= k
    ensures (forall i :: k <= i < |s| ==> s[i] >= m) ==> Above(s, m) >= |s| - k
  {
    if s != [] {
      OrderedCounts(s[1..], m, if k == 0 then 0 else k - 1);
    }
  }

  lemma MeanLiesBetween(a: int, b: int)
    requires a <= b
    ensures a <= (a + b + 1) / 2 <= b
  {
  }

  lemma OddMiddle(s: seq<int>, middle: nat)
    requires Ordered(s) && |s| == 2 * middle + 1
    ensures 2 * Below(s, s[middle]) >= |s| && 2 * Above(s, s[middle]) >= |s|
  {
    OrderedCounts(s, s[middle], middle + 1);
    OrderedCounts(s, s[middle], middle);
  }

  lemma EvenMiddle(s: seq<int>, middle: nat, m: int)
    requires Ordered(s) && |s| == 2 * middle && middle > 0 && s[middle - 1] <= m <= s[middle]
    ensures 2 * Below(s, m) >= |s| && 2 * Above(s, m) >= |s|
  {
    forall i | 0 <= i < middle ensures s[i] <= m {
      assert s[i] <= s[middle - 1];
    }
    forall i | middle <= i < |s| ensures s[i] >= m {
      assert s[i] >= s[middle];
    }
    OrderedCounts(s, m, middle);
  }

  /** At least half of the values lie on each side of the median. */
  lemma MedianHasHalfOnEachSide(values: seq<int>)
    requires values != []
    ensures MedianOf(values).Some?
    ensures var m := MedianOf(values).value; 2 * Below(values, m) >= |values| && 2 * Above(values, m) >= |values|
  {
    SortOrders(values);
    MedianIsMiddling(values);
    hide MedianOf, Sort, Ordered, Below, Above;
    var m := MedianOf(values).value;
    var middle := |values| / 2;
    SortCounts(values, m);
    if |values| % 2 == 1 {
      OddMiddle(Sort(values), middle);
    } else {
      EvenMiddle(Sort(values), middle, m);
    }
  }

  /** The median is the middle value, or lies between the two middle ones. */
  lemma MedianIsMiddling(values: seq<int>)
    requires values != []
    ensures MedianOf(values).Some? && |Sort(values)| == |values|
    ensures var s, m, k := Sort(values), MedianOf(values).value, |values| / 2;
      if |values| % 2 == 1 then m == s[k] else 0 < k && s[k - 1] <= m <= s[k]
  {
    SortOrders(values);
    hide Sort;
    if |values| % 2 == 0 {
      MeanLiesBetween(Sort(values)[|values| / 2 - 1], Sort(values)[|values| / 2]);
    }
  }

  // ── the tallies ──

  function TallyOf(rows: seq<DecidedRow>): Tally {
    var approved := Approvals(rows);
    Tally(|rows|, approved, |rows| - approved, RateOf(approved, |rows|), MedianOf(Seconds(rows)), FastOnes(rows))
  }

  lemma {:induction false} ApprovalsAreDecided(rows: seq<DecidedRow>)
    ensures Approvals(rows) <= |rows| && FastOnes(rows) <= |rows|
  {
    if rows != [] {
      ApprovalsAreDecided(rows[..|rows| - 1]);
    }
  }

  /** A rate lies between 0 and 1, and reads as 1 only when 99.95 per cent or more are approvals. */
  lemma RatesAreShares(rows: seq<DecidedRow>)
    requires rows != []
    ensures var rate := RateOf(Approvals(rows), |rows|);
      && rate.Some? && 0.0 <= rate.value <= 1.0
      && (rate.value == 1.0 <==> 2000 * (|rows| - Approvals(rows)) <= |rows|)
  {
    ApprovalsAreDecided(rows);
    RoundedShare(Approvals(rows), |rows|);
  }

  lemma RoundedShare(a: nat, n: nat)
    requires a <= n && 0 < n
    ensures var f := ((a as real / n as real) * 1000.0 + 0.5).Floor; 0 <= f <= 1000 && (f == 1000 <==> 2000 * (n - a) <= n)
  {
    var share := a as real / n as real;
    ShareAtLeast(share, 0.0, a as real, n as real);
    ShareAtLeast(share, 0.9995, a as real, n as real);
    ShareAtMost(share, 1.0, a as real, n as real);
    RoundsToAThousand(share);
    NearlyAll(a, n);
  }

  lemma ShareAtLeast(share: real, bound: real, a: real, n: real)
    requires n > 0.0 && share == a / n
    ensures share >= bound <==> a >= bound * n
  {
    assert share * n == a;
    if share >= bound {
      assert share * n >= bound * n;
    } else {
      assert share * n < bound * n;
    }
  }

  lemma ShareAtMost(share: real, bound: real, a: real, n: real)
    requires n > 0.0 && share == a / n
    ensures share <= bound <==> a <= bound * n
  {
    assert share * n == a;
    if share <= bound {
      assert share * n <= bound * n;
    } else {
      assert share * n > bound * n;
    }
  }

  lemma RoundsToAThousand(share: real)
    requires 0.0 <= share <= 1.0
    ensures var f := (share * 1000.0 + 0.5).Floor; 0 <= f <= 1000 && (f == 1000 <==> share >= 0.9995)
  {
  }

  lemma NearlyAll(a: nat, n: nat)
    ensures 2000 * (n - a) <= n <==> a as real >= 0.9995 * n as real
  {
    assert (2000 * a) as real == 2000.0 * a as real && (1999 * n) as real == 1999.0 * n as real;
  }

  /** One reviewer's rows, in order. */
  function RowsOf(rows: seq<DecidedRow>, id: Option<string>): seq<DecidedRow> {
    if rows == [] then []
    else
      var last := rows[|rows| - 1];
      var before := RowsOf(rows[..|rows| - 1], id);
      if last.approvedById == id then before + [last] else before
  }

  function Without(rows: seq<DecidedRow>, id: Option<string>): seq<DecidedRow> {
    if rows == [] then []
    else
      var last := rows[|rows| - 1];
      var before := Without(rows[..|rows| - 1], id);
      if last.approvedById == id then before else before + [last]
  }

  /** The three counts that add up: decided, approved, fast. */
  datatype Counts = Counts(decided: nat, approved: nat, rejected: int, fast: nat)

  function CountsOf(rows: seq<DecidedRow>): Counts {
    Counts(|rows|, Approvals(rows), |rows| - Approvals(rows), FastOnes(rows))
  }

  function Plus(a: Counts, b: Counts): Counts {
    Counts(a.decided + b.decided, a.approved + b.approved, a.rejected + b.rejected, a.fast + b.fast)
  }

  function One(row: DecidedRow): Counts {
    Counts(1, if IsApproval(row) then 1 else 0, if IsApproval(row) then 0 else 1,
           if SecondsToDecide(row) < FAST_REVIEW_SECONDS then 1 else 0)
  }

  lemma CountsAppend(rows: seq<DecidedRow>, row: DecidedRow)
    ensures CountsOf(rows + [row]) == Plus(CountsOf(rows), One(row))
  {
    hide SecondsToDecide, IsApproval;
    assert (rows + [row])[..|rows|] == rows;
  }

  lemma WithoutAppend(rows: seq<DecidedRow>, row: DecidedRow, id: Option<string>)
    ensures Without(rows + [row], id) == if row.approvedById == id then Without(rows, id) else Without(rows, id) + [row]
  {
    assert (rows + [row])[..|rows|] == rows;
  }

  lemma CountsSplitStep(rows: seq<DecidedRow>, row: DecidedRow, id: Option<string>)
    requires CountsOf(rows) == Plus(CountsOf(RowsOf(rows, id)), CountsOf(Without(rows, id)))
    ensures CountsOf(rows + [row]) == Plus(CountsOf(RowsOf(rows + [row], id)), CountsOf(Without(rows + [row], id)))
  {
    RowsAppend(rows, row, id);
    WithoutAppend(rows, row, id);
    CountsAppend(rows, row);
    CountsAppend(RowsOf(rows, id), row);
    CountsAppend(Without(rows, id), row);
    hide RowsOf, Without, CountsOf, One;
  }

  lemma {:induction false} CountsSplit(rows: seq<DecidedRow>, id: Option<string>)
    ensures CountsOf(rows) == Plus(CountsOf(RowsOf(rows, id)), CountsOf(Without(rows, id)))
  {
    hide CountsOf;
    if rows == [] {
      NothingCounts();
    } else {
      var init, last := rows[..|rows| - 1], rows[|rows| - 1];
      assert rows == init + [last];
      CountsSplit(init, id);
      CountsSplitStep(init, last, id);
    }
  }

  lemma NothingCounts()
    ensures CountsOf([]) == Counts(0, 0, 0, 0)
  {
  }

  lemma {:induction false} WithoutKeepsOthers(rows: seq<DecidedRow>, id: Option<string>, other: Option<string>)
    requires other != id
    ensures RowsOf(Without(rows, id), other) == RowsOf(rows, other)
    ensures forall row :: row in Without(rows, id) <==> row in rows && row.approvedById != id
  {
    if rows != [] {
      var init, last := rows[..|rows| - 1], rows[|rows| - 1];
      WithoutKeepsOthers(init, id, other);
      assert rows == init + [last];
      if last.approvedById == id {
        assert Without(rows, id) == Without(init, id);
      } else {
        assert Without(rows, id)[..|Without(rows, id)| - 1] == Without(init, id);
      }
    }
  }

  function SumOver(rows: seq<DecidedRow>, ids: seq<Option<string>>): Counts {
    if ids == [] then Counts(0, 0, 0, 0) else Plus(CountsOf(RowsOf(rows, ids[0])), SumOver(rows, ids[1..]))
  }

  lemma {:induction false} SumIgnoresOthers(rows: seq<DecidedRow>, id: Option<string>, ids: seq<Option<string>>)
    requires id !in ids
    ensures SumOver(Without(rows, id), ids) == SumOver(rows, ids)
  {
    if ids != [] {
      WithoutKeepsOthers(rows, id, ids[0]);
      SumIgnoresOthers(rows, id, ids[1..]);
    }
  }

  lemma SomebodyDecided(rows: seq<DecidedRow>, ids: seq<Option<string>>)
    requires rows != [] && forall row :: row in rows ==> row.approvedById in ids
    ensures ids != []
  {
    assert rows[0] in rows;
  }

  /** However the reviewers are listed, each once and none left out, their figures sum to the aggregate. */
  lemma {:induction false} ReviewersSumToTheAggregate(rows: seq<DecidedRow>, ids: seq<Option<string>>)
    requires forall i, j :: 0 <= i < j < |ids| ==> ids[i] != ids[j]
    requires forall row :: row in rows ==> row.approvedById in ids
    ensures SumOver(rows, ids) == CountsOf(rows)
    decreases |ids|
  {
    if ids == [] {
      if rows != [] {
        SomebodyDecided(rows, ids);
      }
    } else {
      var rest := Without(rows, ids[0]);
      WithoutKeepsOthers(rows, ids[0], if ids[0] == None then Some("") else None);
      assert forall id :: id in ids ==> id == ids[0] || id in ids[1..];
      CountsSplit(rows, ids[0]);
      hide CountsOf, Without, RowsOf, Plus;
      ReviewersSumToTheAggregate(rest, ids[1..]);
      SumIgnoresOthers(rows, ids[0], ids[1..]);
    }
  }

  /** The buckets hold each decider's rows so far, and list each decider once. */
  ghost predicate Grouped(rows: seq<DecidedRow>, groups: map<Option<string>, seq<DecidedRow>>, order: seq<Option<string>>) {
    && (forall i :: 0 <= i < |order| ==> order[i] in groups)
    && (forall i, j :: 0 <= i < j < |order| ==> order[i] != order[j])
    && (forall id :: id in groups ==> id in order && groups[id] == RowsOf(rows, id) && groups[id] != [])
    && (forall id :: id !in groups ==> RowsOf(rows, id) == [])
  }

  lemma RowsAppend(rows: seq<DecidedRow>, row: DecidedRow, id: Option<string>)
    ensures RowsOf(rows + [row], id) == if row.approvedById == id then RowsOf(rows, id) + [row] else RowsOf(rows, id)
  {
    assert (rows + [row])[..|rows|] == rows;
  }

  /** One more row joins its decider's bucket, or opens one. */
  lemma GroupOneMore(rows: seq<DecidedRow>, groups: map<Option<string>, seq<DecidedRow>>, order: seq<Option<string>>, row: DecidedRow)
    requires Grouped(rows, groups, order)
    ensures var id := row.approvedById;
      if id in groups then Grouped(rows + [row], groups[id := groups[id] + [row]], order)
      else Grouped(rows + [row], groups[id := [row]], order + [id])
  {
    forall id ensures RowsOf(rows + [row], id) == if row.approvedById == id then RowsOf(rows, id) + [row] else RowsOf(rows, id) {
      RowsAppend(rows, row, id);
    }
    hide RowsOf;
  }

  method Group(rows: seq<DecidedRow>) returns (groups: map<Option<string>, seq<DecidedRow>>, order: seq<Option<string>>)
    ensures Grouped(rows, groups, order)
  {
    groups, order := map[], [];
    for n := 0 to |rows|
      invariant Grouped(rows[..n], groups, order)
    {
      GroupOneMore(rows[..n], groups, order, rows[n]);
      assert rows[..n + 1] == rows[..n] + [rows[n]];
      var id := rows[n].approvedById;
      if id in groups {
        groups := groups[id := groups[id] + [rows[n]]];
      } else {
        groups := groups[id := [rows[n]]];
        order := order + [id];
      }
    }
    assert rows[..|rows|] == rows;
  }

  lemma {:induction false} EveryRowIsGrouped(rows: seq<DecidedRow>, row: DecidedRow)
    requires row in rows
    ensures row in RowsOf(rows, row.approvedById)
  {
    var init, last := rows[..|rows| - 1], rows[|rows| - 1];
    assert rows == init + [last];
    if row != last {
      EveryRowIsGrouped(init, row);
    }
  }

  /** byReviewer: one entry per decider, in the order they first appear, each with the figures
      of exactly its own rows. */
  method ByReviewer(rows: seq<DecidedRow>) returns (reviewers: seq<ReviewerStats>)
    ensures forall i, j :: 0 <= i < j < |reviewers| ==> reviewers[i].approverId != reviewers[j].approverId
    ensures forall row :: row in rows ==> exists i :: 0 <= i < |reviewers| && reviewers[i].approverId == row.approvedById
    ensures forall i :: 0 <= i < |reviewers| ==>
      reviewers[i].tally == TallyOf(RowsOf(rows, reviewers[i].approverId)) && reviewers[i].tally.decided > 0
  {
    hide RowsOf, RateOf, MedianOf, Seconds, Approvals, FastOnes;
    var groups, order := Group(rows);
    reviewers := [];
    for i := 0 to |order|
      invariant |reviewers| == i
      invariant forall k :: 0 <= k < i ==> reviewers[k].approverId == order[k] && reviewers[k].tally == TallyOf(groups[order[k]])
    {
      reviewers := reviewers + [ReviewerStats(order[i], TallyOf(groups[order[i]]))];
    }
    forall row | row in rows ensures exists i :: 0 <= i < |reviewers| && reviewers[i].approverId == row.approvedById {
      EveryRowIsGrouped(rows, row);
      var i :| 0 <= i < |order| && order[i] == row.approvedById;
      assert reviewers[i].approverId == row.approvedById;
    }
  }

  // ── the rows of the agent tables ──

  /** The decided proposals of the window. */
  function DecidedRows(proposals: seq<Proposal>, since: Time): seq<DecidedRow> {
    if proposals == [] then []
    else
      var last := proposals[|proposals| - 1];
      DecidedRows(proposals[..|proposals| - 1], since) +
      (if last.decidedAt.Some? && last.decidedAt.value >= since
       then [DecidedRow(last.status, last.approvedById, last.createdAt, last.decidedAt.value)] else [])
  }

  /** In every reachable state every row of the figures belongs to somebody, and was decided
      one way or the other. */
  lemma {:induction false} EveryRowHasAReviewer(proposals: seq<Proposal>, since: Time)
    requires forall p :: 0 <= p < |proposals| ==> AgentHistory.ProposalSound(proposals[p])
    ensures forall row :: row in DecidedRows(proposals, since) ==> row.approvedById.Some? && row.status != Pending
  {
    if proposals != [] {
      EveryRowHasAReviewer(proposals[..|proposals| - 1], since);
    }
  }

  /** The proposals an abort or an expiry drops were decided by nobody: no figure moves. */
  lemma {:induction false} DroppedProposalsDoNotCount(proposals: seq<Proposal>, r: RunId, since: Time)
    requires forall p :: 0 <= p < |proposals| ==> AgentHistory.ProposalSound(proposals[p])
    ensures DecidedRows(DropPending(proposals, r), since) == DecidedRows(proposals, since)
  {
    if proposals != [] {
      var init := proposals[..|proposals| - 1];
      DroppedProposalsDoNotCount(init, r, since);
      assert DropPending(proposals, r)[..|proposals| - 1] == DropPending(init, r);
    }
  }

  /** In every reachable state the per-reviewer rows name a person each, and their decided,
      approved, rejected and fast counts sum to the aggregate. */
  lemma ReachableFiguresAddUp(a: Agent, since: Time, ids: seq<Option<string>>)
    requires AgentHistory.AgentSound(a)
    requires forall i, j :: 0 <= i < j < |ids| ==> ids[i] != ids[j]
    requires forall row :: row in DecidedRows(a.proposals, since) ==> row.approvedById in ids
    requires forall id :: id in ids ==> RowsOf(DecidedRows(a.proposals, since), id) != []
    ensures None !in ids
    ensures SumOver(DecidedRows(a.proposals, since), ids) == CountsOf(DecidedRows(a.proposals, since))
  {
    var rows := DecidedRows(a.proposals, since);
    EveryRowHasAReviewer(a.proposals, since);
    ReviewersSumToTheAggregate(rows, ids);
    NobodyHasNoRows(rows);
  }

  lemma {:induction false} NobodyHasNoRows(rows: seq<DecidedRow>)
    requires forall row :: row in rows ==> row.approvedById.Some?
    ensures RowsOf(rows, None) == []
  {
    if rows != [] {
      assert rows[|rows| - 1] in rows;
      NobodyHasNoRows(rows[..|rows| - 1]);
    }
  }

  // ── the figures as they are returned ──

  const MS_PER_DAY: int := 86_400_000

  datatype Figures = Figures(since: Time, total: Tally, pending: nat, byReviewer: seq<ReviewerStats>)

  /** The three counts and the fast one, summed over the entries. */
  function Summed(reviewers: seq<ReviewerStats>): Counts {
    if reviewers == [] then Counts(0, 0, 0, 0)
    else
      var t := reviewers[0].tally;
      Plus(Counts(t.decided, t.approved, t.rejected, t.fastDecisions), Summed(reviewers[1..]))
  }

  function Ids(reviewers: seq<ReviewerStats>): seq<Option<string>> {
    seq(|reviewers|, i requires 0 <= i < |reviewers| => reviewers[i].approverId)
  }

  lemma {:induction false} SummedIsTheSumOver(rows: seq<DecidedRow>, reviewers: seq<ReviewerStats>)
    requires forall i :: 0 <= i < |reviewers| ==> reviewers[i].tally == TallyOf(RowsOf(rows, reviewers[i].approverId))
    ensures Summed(reviewers) == SumOver(rows, Ids(reviewers))
  {
    hide RowsOf, RateOf, MedianOf, Seconds, Approvals, FastOnes;
    if reviewers != [] {
      assert Ids(reviewers)[1..] == Ids(reviewers[1..]);
      SummedIsTheSumOver(rows, reviewers[1..]);
    }
  }

  /** summarise: on any reachable state every entry names a person, and the entries' decided,
      approved, rejected and fast counts sum to the total beside them. */
  method Summarise(a: Agent, windowDays: nat, now: Time) returns (figures: Figures)
    requires AgentHistory.AgentSound(a)
    ensures figures.since == now - windowDays * 86_400_000
    ensures figures.total == TallyOf(DecidedRows(a.proposals, figures.since))
    ensures figures.pending == PendingProposals(a.proposals)
    ensures forall i :: 0 <= i < |figures.byReviewer| ==> figures.byReviewer[i].approverId.Some?
    ensures forall i, j :: 0 <= i < j < |figures.byReviewer| ==> figures.byReviewer[i].approverId != figures.byReviewer[j].approverId
    ensures Summed(figures.byReviewer) ==
      Counts(figures.total.decided, figures.total.approved, figures.total.rejected, figures.total.fastDecisions)
  {
    hide RowsOf, RateOf, MedianOf, Seconds, Approvals, FastOnes, AgentHistory.AgentSound, SumOver;
    var since := now - windowDays * MS_PER_DAY;
    var rows := FindDecided(a.proposals, since);
    var reviewers := ByReviewer(rows);
    ghost var ids := Ids(reviewers);
    forall row | row in rows ensures row.approvedById in ids {
      var i :| 0 <= i < |reviewers| && reviewers[i].approverId == row.approvedById;
      assert ids[i] == row.approvedById;
    }
    SummedIsTheSumOver(rows, reviewers);
    ReachableFiguresAddUp(a, since, ids);
    assert forall i :: 0 <= i < |reviewers| ==> reviewers[i].approverId == ids[i];
    figures := Figures(since, TallyOf(rows), PendingProposals(a.proposals), reviewers);
  }

  method FindDecided(proposals: seq<Proposal>, since: Time) returns (rows: seq<DecidedRow>)
    ensures rows == DecidedRows(proposals, since)
  {
    rows := [];
    for p := 0 to |proposals|
      invariant rows == DecidedRows(proposals[..p], since)
    {
      assert proposals[..p + 1][..p] == proposals[..p];
      var proposal := proposals[p];
      if proposal.decidedAt.Some? && proposal.decidedAt.value >= since {
        rows := rows + [DecidedRow(proposal.status, proposal.approvedById, proposal.createdAt, proposal.decidedAt.value)];
      }
    }
    assert proposals[..|proposals|] == proposals;
  }
}
