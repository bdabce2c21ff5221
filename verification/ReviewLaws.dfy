/** What the review figures count, said on the proposals themselves. */
module ReviewLaws {
  import opened Wrappers
  import opened Database
  import opened AgentRuns
  import S = ReviewStats

  // ── which proposals count ──

  /** Decided by somebody, at the start of the window or later. */
  predicate InWindow(p: Proposal, since: Time) {
    p.decidedAt.Some? && since <= p.decidedAt.value
  }

  /** The person said yes, whatever the platform then made of it. */
  predicate SaidYes(p: Proposal) {
    p.status == Executed || p.status == ProposalFailed
  }

  /** Decided in less than twenty-nine and a half seconds, which reads as less than thirty. */
  predicate Quick(p: Proposal) {
    p.decidedAt.Some? && p.decidedAt.value - p.createdAt < 29_500
  }

  function DecidedOnes(proposals: seq<Proposal>, since: Time): set<ProposalId> {
    set p | 0 <= p < |proposals| && InWindow(proposals[p], since)
  }

  function YesOnes(proposals: seq<Proposal>, since: Time): set<ProposalId> {
    set p | 0 <= p < |proposals| && InWindow(proposals[p], since) && SaidYes(proposals[p])
  }

  function QuickOnes(proposals: seq<Proposal>, since: Time): set<ProposalId> {
    set p | 0 <= p < |proposals| && InWindow(proposals[p], since) && Quick(proposals[p])
  }

  lemma OneMore(proposals: seq<Proposal>, since: Time)
    requires proposals != []
    ensures var last := |proposals| - 1; var init := proposals[..last];
      && DecidedOnes(proposals, since) == DecidedOnes(init, since) + (if InWindow(proposals[last], since) then {last} else {})
      && YesOnes(proposals, since) ==
           YesOnes(init, since) + (if InWindow(proposals[last], since) && SaidYes(proposals[last]) then {last} else {})
      && QuickOnes(proposals, since) ==
           QuickOnes(init, since) + (if InWindow(proposals[last], since) && Quick(proposals[last]) then {last} else {})
  {
    hide InWindow, SaidYes, Quick;
  }

  /** The counts are the numbers of those proposals. */
  lemma {:induction false} CountsAreProposals(proposals: seq<Proposal>, since: Time)
    ensures var rows := S.DecidedRows(proposals, since);
      && |rows| == |DecidedOnes(proposals, since)|
      && S.Approvals(rows) == |YesOnes(proposals, since)|
      && S.FastOnes(rows) == |QuickOnes(proposals, since)|
  {
    if proposals != [] {
      var last := |proposals| - 1;
      var init := proposals[..last];
      CountsAreProposals(init, since);
      OneMore(proposals, since);
      var before := S.DecidedRows(init, since);
      if InWindow(proposals[last], since) {
        var row := S.DecidedRow(proposals[last].status, proposals[last].approvedById, proposals[last].createdAt, proposals[last].decidedAt.value);
        assert S.DecidedRows(proposals, since) == before + [row];
        assert (before + [row])[..|before|] == before;
      } else {
        assert S.DecidedRows(proposals, since) == before;
      }
      hide DecidedOnes, YesOnes, QuickOnes;
    }
  }

  /** The total of the window: how many were decided, how many with a yes, how many with a no, and
      how many faster than anybody reads. */
  lemma TotalsMean(proposals: seq<Proposal>, since: Time)
    ensures var total := S.TallyOf(S.DecidedRows(proposals, since));
      && total.decided == |DecidedOnes(proposals, since)|
      && total.approved == |YesOnes(proposals, since)|
      && total.rejected == |DecidedOnes(proposals, since)| - |YesOnes(proposals, since)|
      && total.fastDecisions == |QuickOnes(proposals, since)|
  {
    CountsAreProposals(proposals, since);
    hide S.DecidedRows, S.Approvals, S.FastOnes, S.RateOf, S.MedianOf, S.Seconds, DecidedOnes, YesOnes, QuickOnes;
  }

  // ── what the figures mean ──

  /** To the nearest second, a half counting up, and never below zero. */
  lemma SecondsMean(row: S.DecidedRow)
    ensures var ms := row.decidedAt - row.createdAt; var seconds := S.SecondsToDecide(row);
      if ms < 500 then seconds == 0 else -500 < 1000 * seconds - ms <= 500
  {
  }

  /** The share to the nearest thousandth, a half counting up. */
  lemma RateMeans(approved: nat, decided: nat)
    requires decided > 0
    ensures S.RateOf(approved, decided).Some?
    ensures var rate := S.RateOf(approved, decided).value; var share := approved as real / decided as real;
      && -0.0005 < rate - share <= 0.0005
      && rate * 1000.0 == (rate * 1000.0).Floor as real
  {
    var share := approved as real / decided as real;
    Nearest(share);
  }

  lemma Nearest(share: real)
    ensures var thousandths := (share * 1000.0 + 0.5).Floor; var rate := thousandths as real / 1000.0;
      && -0.0005 < rate - share <= 0.0005
      && rate * 1000.0 == thousandths as real
  {
  }

  lemma NothingDecidedHasNoShare(approved: nat)
    ensures S.RateOf(approved, 0) == None
  {
  }

  /** In ascending order the median is the middle value or, of an even number, the mean of the two in
      the middle, a half counting up. */
  lemma MedianMeans(values: seq<int>, ascending: seq<int>)
    requires values != [] && S.Ordered(ascending) && multiset(ascending) == multiset(values)
    ensures S.MedianOf(values).Some? && |ascending| == |values|
    ensures var m, k := S.MedianOf(values).value, |values| / 2;
      if |values| % 2 == 1 then m == ascending[k]
      else k > 0 && (2 * m == ascending[k - 1] + ascending[k] || 2 * m == ascending[k - 1] + ascending[k] + 1)
  {
    S.SortOrders(values);
    S.OneOrderedForm(ascending, S.Sort(values));
    hide S.Sort, S.Ordered;
  }

  lemma NothingHasNoMedian()
    ensures S.MedianOf([]) == None
  {
  }

  /** The rate of a tally is the share of its yeses, and its median the median of its rows' seconds. */
  lemma TallyMeans(rows: seq<S.DecidedRow>, ascending: seq<int>)
    requires rows != [] && S.Ordered(ascending)
    requires multiset(ascending) == multiset(seq(|rows|, i requires 0 <= i < |rows| => S.SecondsToDecide(rows[i])))
    ensures var tally := S.TallyOf(rows);
      && tally.approvalRate.Some? && -0.0005 < tally.approvalRate.value - tally.approved as real / tally.decided as real <= 0.0005
      && tally.medianSecondsToDecide.Some? && |ascending| == |rows|
      && var m, k := tally.medianSecondsToDecide.value, |rows| / 2;
      if |rows| % 2 == 1 then m == ascending[k]
      else k > 0 && (2 * m == ascending[k - 1] + ascending[k] || 2 * m == ascending[k - 1] + ascending[k] + 1)
  {
    var values := seq(|rows|, i requires 0 <= i < |rows| => S.SecondsToDecide(rows[i]));
    assert values == S.Seconds(rows);
    MedianMeans(values, ascending);
    RateMeans(S.Approvals(rows), |rows|);
    hide S.MedianOf, S.RateOf, S.Approvals, S.FastOnes, S.Seconds, S.Ordered, S.SecondsToDecide;
  }
}
