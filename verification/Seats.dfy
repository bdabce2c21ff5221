/**
  Seat counts against the timeline and against the tenant: what one change of the
  tables may do to the totals.
 */
module Seats {
  import opened Wrappers
  import opened Stages
  import opened Database
  import opened History

  // ── ledger against timeline ──

  /** The ledger cell an ASSIGN row charged: the OpCo of its request, the SKU of its line. */
  predicate Charges(db: Db, e: Event, cell: Cell) {
    && e.Assign? && e.holding != Held
    && e.lineId in db.lines && e.requestId < |db.requests|
    && cell == Cell(db.requests[e.requestId].opcoId, db.lines[e.lineId].skuCatalogId)
  }

  /** How many of these timeline rows charged a seat to `cell`. */
  function Charged(db: Db, events: seq<Event>, cell: Cell): nat {
    if events == [] then 0
    else Charged(db, events[..|events| - 1], cell) + (if Charges(db, events[|events| - 1], cell) then 1 else 0)
  }

  /** What the ledger holds beyond what the timeline accounts for: its starting value. */
  function Unexplained(db: Db, cell: Cell): int {
    db.AssignedQuantity(cell) - Charged(db, db.events, cell)
  }

  /** The rows that decide which cell an ASSIGN row charged are still what they were. */
  ghost predicate ChargesStand(before: Db, after: Db) {
    && |before.requests| <= |after.requests|
    && (forall r :: 0 <= r < |before.requests| ==> after.requests[r].opcoId == before.requests[r].opcoId)
    && (forall l :: l in before.lines && before.lines[l].stage == Assigned ==>
          l in after.lines && after.lines[l].skuCatalogId == before.lines[l].skuCatalogId)
  }

  /** No ledger row and no allocation moved, and no ASSIGN row was written. */
  ghost predicate SeatsStill(before: Db, after: Db) {
    && ChargesStand(before, after)
    && after.catalogue == before.catalogue
    && after.ledger == before.ledger
    && before.events <= after.events
    && (forall i :: |before.events| <= i < |after.events| ==> !after.events[i].Assign?)
  }

  lemma {:induction false} OldChargesStand(before: Db, after: Db, events: seq<Event>, cell: Cell)
    requires AssignsStand(before) && ChargesStand(before, after) && before.Valid()
    requires forall e :: e in events ==> e in before.events
    ensures Charged(after, events, cell) == Charged(before, events, cell)
  {
    if events != [] {
      var e := events[|events| - 1];
      OldChargesStand(before, after, events[..|events| - 1], cell);
      assert e in before.events;
    }
  }

  lemma {:induction false} NoAssignRowsChargeNothing(db: Db, events: seq<Event>, more: seq<Event>, cell: Cell)
    requires forall i :: 0 <= i < |more| ==> !more[i].Assign?
    ensures Charged(db, events + more, cell) == Charged(db, events, cell)
  {
    if more == [] {
      assert events + more == events;
    } else {
      var last := |more| - 1;
      assert (events + more)[..|events + more| - 1] == events + more[..last];
      NoAssignRowsChargeNothing(db, events, more[..last], cell);
    }
  }

  lemma StillSeatsStayExplained(before: Db, after: Db, cell: Cell)
    requires before.Valid() && AssignsStand(before) && SeatsStill(before, after)
    ensures Unexplained(after, cell) == Unexplained(before, cell)
  {
    var more := after.events[|before.events|..];
    assert after.events == before.events + more;
    NoAssignRowsChargeNothing(after, before.events, more, cell);
    OldChargesStand(before, after, before.events, cell);
  }

  // ── ledger against tenant ──

  /** The seats of one SKU over these OpCos. */
  ghost function SeatSum(db: Db, opcos: set<OpcoId>, sku: SkuRowId): int {
    if opcos == {} then 0
    else var o :| o in opcos; db.AssignedQuantity(Cell(o, sku)) + SeatSum(db, opcos - {o}, sku)
  }

  lemma {:induction false} SeatSumSplit(db: Db, opcos: set<OpcoId>, sku: SkuRowId, o: OpcoId)
    requires o in opcos
    ensures SeatSum(db, opcos, sku) == db.AssignedQuantity(Cell(o, sku)) + SeatSum(db, opcos - {o}, sku)
    decreases |opcos|
  {
    var first :| first in opcos && SeatSum(db, opcos, sku) == db.AssignedQuantity(Cell(first, sku)) + SeatSum(db, opcos - {first}, sku);
    if first != o {
      SeatSumSplit(db, opcos - {first}, sku, o);
      SeatSumSplit(db, opcos - {o}, sku, first);
      assert opcos - {first} - {o} == opcos - {o} - {first};
    }
  }

  lemma {:induction false} SeatSumFrame(before: Db, after: Db, opcos: set<OpcoId>, sku: SkuRowId)
    requires forall o :: o in opcos ==> after.AssignedQuantity(Cell(o, sku)) == before.AssignedQuantity(Cell(o, sku))
    ensures SeatSum(after, opcos, sku) == SeatSum(before, opcos, sku)
    decreases |opcos|
  {
    if opcos != {} {
      var o :| o in opcos;
      SeatSumSplit(before, opcos, sku, o);
      SeatSumSplit(after, opcos, sku, o);
      SeatSumFrame(before, after, opcos - {o}, sku);
    }
  }

  /** The users holding a licence in the tenant. */
  function Holders(holdings: set<(string, string)>, guid: string): set<string> {
    set h | h in holdings && h.1 == guid :: h.0
  }

  /** Seats the platform counts for a SKU, less the users who hold it. */
  ghost function Drift(db: Db, holdings: set<(string, string)>, sku: SkuRowId): int
    requires sku in db.catalogue.skus
  {
    SeatSum(db, db.catalogue.opcos, sku) - |Holders(holdings, db.catalogue.skus[sku].skuId)|
  }

  lemma HoldersGrow(holdings: set<(string, string)>, upn: string, guid: string, asked: string)
    ensures Holders(holdings + {(upn, guid)}, asked) == Holders(holdings, asked) + (if asked == guid then {upn} else {})
    ensures upn in Holders(holdings, guid) <==> (upn, guid) in holdings
  {
    assert (upn, guid) in holdings + {(upn, guid)};
    forall u | u in Holders(holdings, asked) ensures u in Holders(holdings + {(upn, guid)}, asked) {
      assert (u, asked) in holdings + {(upn, guid)};
    }
    if (upn, guid) in holdings {
      assert upn in Holders(holdings, guid);
    }
  }

  /** One more seat in one cell, one more holding for one user: the drift moves by one
      exactly when that user held the licence already. */
  lemma OneSeatOneHolder(before: Db, after: Db, holdings: set<(string, string)>, cell: Cell, upn: string, sku: SkuRowId)
    requires before.Valid() && after.catalogue == before.catalogue
    requires cell.opcoId in before.catalogue.opcos && cell.skuCatalogId in before.catalogue.skus && sku in before.catalogue.skus
    requires forall other :: after.AssignedQuantity(other) == before.AssignedQuantity(other) + (if other == cell then 1 else 0)
    ensures var guid := before.catalogue.skus[cell.skuCatalogId].skuId;
      Drift(after, holdings + {(upn, guid)}, sku) == Drift(before, holdings, sku) +
        (if sku == cell.skuCatalogId && (upn, guid) in holdings then 1 else 0)
  {
    var guid := before.catalogue.skus[cell.skuCatalogId].skuId;
    var opcos := before.catalogue.opcos;
    HoldersGrow(holdings, upn, guid, before.catalogue.skus[sku].skuId);
    if sku == cell.skuCatalogId {
      SeatSumSplit(before, opcos, sku, cell.opcoId);
      SeatSumSplit(after, opcos, sku, cell.opcoId);
      SeatSumFrame(before, after, opcos - {cell.opcoId}, sku);
    } else {
      assert before.catalogue.skus[sku].skuId != guid;
      SeatSumFrame(before, after, opcos, sku);
    }
  }
}
