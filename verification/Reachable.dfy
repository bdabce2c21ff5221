/**
  From empty tables, through any calls of people and agents: everything the other
  modules keep, in one place.
 */
module Reachable {
  import opened Wrappers
  import opened Database
  import opened Outside
  import opened AgentRuns
  import opened AgentApproval
  import opened AgentMachine
  import AgentHistory
  import History
  import LicenceHistory
  import LicenceLaws
  import Platform
  import PlatformHistory
  import ProposalBooks
  import ProposalHistory
  import Provenance
  import QueueHistory
  import QueueRows
  import SeatHistory
  import Seats

  /** A catalogue and its allocations, and nothing recorded yet. */
  function EmptyTables(catalogue: Catalogue, ledger: map<Cell, LedgerRow>): Db {
    Db(catalogue, [], map[], map[], 0, ledger, [], [])
  }

  function Start(catalogue: Catalogue, ledger: map<Cell, LedgerRow>, holdings: set<(string, string)>): Site {
    Site(World(EmptyTables(catalogue, ledger), holdings, [], []), Agent(None, [], []))
  }

  lemma StartIsSound(catalogue: Catalogue, ledger: map<Cell, LedgerRow>, holdings: set<(string, string)>)
    requires catalogue.Valid()
    ensures var s := Start(catalogue, ledger, holdings);
      && ProposalHistory.SiteSound(s)
      && LicenceLaws.Booked(s.world) && SeatHistory.GrantsStand(s.world)
      && ProposalBooks.Books(s, [])
  {
  }

  /** Seats: each ledger cell is its starting value plus the ASSIGN rows that charged it, and each
      SKU has drifted from the tenant by exactly the blind double charges. */
  ghost predicate SeatsAddUp(before: World, after: World, trace: seq<Platform.Call>)
    requires before.db.Valid()
  {
    && (forall cell :: Seats.Unexplained(after.db, cell) == Seats.Unexplained(before.db, cell))
    && after.db.catalogue == before.db.catalogue
    && forall sku :: sku in before.db.catalogue.skus ==>
         && Seats.Drift(after.db, after.holdings, sku) ==
              Seats.Drift(before.db, before.holdings, sku) + SeatHistory.BlindCalls(before, trace, sku)
         && SeatHistory.BlindCalls(before, trace, sku) <= SeatHistory.UnreadCalls(trace)
  }

  /** Tickets: as long as the provider names the items of what it opens, the books of every
      request the flat intake created balance. */
  ghost predicate LicencesAddUp(before: World, trace: seq<Platform.Call>)
    requires before.db.Valid()
  {
    LicenceHistory.NamesItemsIn(trace) ==>
      forall n :: 0 <= n < |trace| && LicenceLaws.Creates(before, trace, n) ==> LicenceLaws.BalancesFrom(before, trace, n)
  }

  /** Every state people and agents can reach together. */
  lemma EveryReachableState(catalogue: Catalogue, ledger: map<Cell, LedgerRow>, holdings: set<(string, string)>, calls: seq<AgentCall>)
    requires catalogue.Valid()
    ensures Start(catalogue, ledger, holdings).Valid()
    ensures var start := Start(catalogue, ledger, holdings); var s := Run(start, calls);
      var log := Provenance.Log(start, calls); var trace := Provenance.CallsOf(log);
      && s.world == Platform.Run(start.world, trace)
      && History.Sound(s.world.db)
      && AgentHistory.AgentSound(s.agent)
      && QueueRows.QueueSound(s.world)
      && SeatHistory.GrantsStand(s.world)
      && SeatsAddUp(start.world, s.world, trace)
      && LicencesAddUp(start.world, trace)
      && ProposalBooks.Books(s, log) && Provenance.Truthful(start.world, log)
  {
    var start := Start(catalogue, ledger, holdings);
    StartIsSound(catalogue, ledger, holdings);
    assert start.Valid();
    PlatformPart(start, calls);
    AgentPart(start, calls);
    hide Run, Platform.Run, History.Sound, AgentHistory.AgentSound, QueueRows.QueueSound, SeatHistory.GrantsStand, ProposalBooks.Books,
         Provenance.Log, Provenance.Truthful, SeatsAddUp, LicencesAddUp, Db.Valid;
  }

  lemma AgentPart(s: Site, calls: seq<AgentCall>)
    requires s.Valid() && ProposalHistory.SiteSound(s) && ProposalBooks.Books(s, [])
    ensures ProposalHistory.SiteSound(Run(s, calls))
    ensures ProposalBooks.Books(Run(s, calls), Provenance.Log(s, calls))
    ensures Provenance.Truthful(s.world, Provenance.Log(s, calls))
  {
    hide Run, ProposalBooks.Books, ProposalHistory.SiteSound, Provenance.Log, Provenance.Truthful, Db.Valid;
    ProposalHistory.RunKeepsAgent(s, calls);
    ProposalHistory.RunKeepsBooks(s, calls, []);
    Provenance.LogIsTruthful(s, calls);
    assert [] + Provenance.Log(s, calls) == Provenance.Log(s, calls);
  }

  /** What holds over runs of the platform holds over the platform's half of a combined run. */
  lemma PlatformPart(s: Site, calls: seq<AgentCall>)
    requires s.Valid() && LicenceLaws.Booked(s.world) && SeatHistory.GrantsStand(s.world)
    ensures var w := Run(s, calls).world; var trace := Provenance.CallsOf(Provenance.Log(s, calls));
      && w == Platform.Run(s.world, trace)
      && QueueRows.QueueSound(w) && SeatHistory.GrantsStand(w)
      && SeatsAddUp(s.world, w, trace)
      && LicencesAddUp(s.world, trace)
  {
    LicenceLaws.BookedIsSound(s.world);
    assert s.world.db.Valid();
    hide Run, Platform.Run, History.Sound, QueueRows.QueueSound, SeatHistory.GrantsStand, LicenceLaws.Booked, SeatsAddUp, LicencesAddUp, Db.Valid;
    Provenance.ErasureLeavesAPlatformRun(s, calls);
    var trace := Provenance.CallsOf(Provenance.Log(s, calls));
    QueueHistory.RunKeepsQueue(s.world, trace, 0);
    SeatHistory.RunGrantsOneUser(s.world, trace);
    RunSeatsAddUp(s.world, trace);
    RunLicencesAddUp(s.world, trace);
  }

  lemma RunSeatsAddUp(w: World, trace: seq<Platform.Call>)
    requires w.db.Valid() && History.Sound(w.db)
    ensures SeatsAddUp(w, Platform.Run(w, trace), trace)
  {
    hide Platform.Run, History.Sound, Seats.Unexplained, Seats.Drift, SeatHistory.BlindCalls, Db.Valid;
    PlatformHistory.RunKeepsCatalogue(w, trace);
    forall cell ensures Seats.Unexplained(Platform.Run(w, trace).db, cell) == Seats.Unexplained(w.db, cell) {
      SeatHistory.RunStaysExplained(w, trace, cell);
    }
    forall sku | sku in w.db.catalogue.skus
      ensures Seats.Drift(Platform.Run(w, trace).db, Platform.Run(w, trace).holdings, sku) ==
        Seats.Drift(w.db, w.holdings, sku) + SeatHistory.BlindCalls(w, trace, sku)
      ensures SeatHistory.BlindCalls(w, trace, sku) <= SeatHistory.UnreadCalls(trace)
    {
      SeatHistory.RunDrifts(w, trace, sku);
    }
  }

  lemma RunLicencesAddUp(w: World, trace: seq<Platform.Call>)
    requires w.db.Valid() && LicenceLaws.Booked(w)
    ensures LicencesAddUp(w, trace)
  {
    hide Platform.Run, LicenceLaws.Booked, LicenceLaws.Creates, LicenceLaws.BalancesFrom, Db.Valid;
    if LicenceHistory.NamesItemsIn(trace) {
      forall n | 0 <= n < |trace| && LicenceLaws.Creates(w, trace, n) ensures LicenceLaws.BalancesFrom(w, trace, n) {
        LicenceLaws.RunBalancesFrom(w, trace, n);
      }
    }
  }
}
