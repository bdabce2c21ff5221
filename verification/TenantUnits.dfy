/** A metered SKU in the tenant: honest inventory reads keep it within its units. */
module TenantUnits {
  import opened Wrappers
  import opened Database
  import opened Outside
  import opened Seats
  import opened Platform
  import A = Assign
  import AssignLaws
  import AssignSeats
  import SeatHistory

  /** An inventory read that does not understate how many users hold the SKU, nor overstate how
      many units it has. */
  predicate HonestRead(w: World, c: Call, guid: string, units: nat) {
    c.AssignLine? && c.answers.tenantSkus.Listed? && guid in c.answers.tenantSkus.counts ==>
      && c.answers.tenantSkus.counts[guid].consumedUnits >= |Holders(w.holdings, guid)|
      && c.answers.tenantSkus.counts[guid].assignableUnits <= units
  }

  /** Every read of the run is honest when it is made. */
  predicate HonestReads(w: World, calls: seq<Call>, guid: string, units: nat)
    requires w.db.Valid()
    decreases |calls|
  {
    calls != [] ==> HonestRead(w, calls[0], guid, units) && HonestReads(Step(w, calls[0]), calls[1..], guid, units)
  }

  /** A licence newly granted from a metered SKU was a unit the read showed free. */
  lemma GrantNeedsAUnit(w: World, call: A.AssignCall, o: A.Oracle)
    requires w.db.Valid() && A.Outcome(w, call, o).1.Done? && !A.ContextOf(w, call, o).holding.Held?
    ensures call.lineId in w.db.lines
    ensures var sku := w.db.catalogue.skus[w.db.lines[call.lineId].skuCatalogId];
      sku.unlimited || AssignLaws.UnitLeft(sku, o.tenantSkus)
  {
    AssignLaws.NewLicencesTakeAUnit(w, call, o);
    hide A.Outcome, A.ContextOf;
  }

  lemma AssignStaysWithinUnits(w: World, call: A.AssignCall, o: A.Oracle, sku: SkuRowId, units: nat)
    requires w.db.Valid() && sku in w.db.catalogue.skus && !w.db.catalogue.skus[sku].unlimited
    requires HonestRead(w, AssignLine(call, o), w.db.catalogue.skus[sku].skuId, units)
    requires |Holders(w.holdings, w.db.catalogue.skus[sku].skuId)| <= units
    ensures |Holders(A.Outcome(w, call, o).0.holdings, w.db.catalogue.skus[sku].skuId)| <= units
  {
    var guid := w.db.catalogue.skus[sku].skuId;
    if A.Outcome(w, call, o).1.Done? {
      AssignSeats.DoneGrantsTheUser(w, call, o);
      if !A.ContextOf(w, call, o).holding.Held? {
        GrantNeedsAUnit(w, call, o);
        var line := w.db.lines[call.lineId];
        hide A.Outcome, Holders;
        HoldersGrow(w.holdings, w.db.requests[line.requestId].targetUpn, w.db.catalogue.skus[line.skuCatalogId].skuId, guid);
        assert w.db.catalogue.skus[line.skuCatalogId].skuId == guid ==> line.skuCatalogId == sku;
      }
    } else {
      AssignSeats.RefusalMovesNoSeat(w, call, o);
    }
  }

  lemma StepStaysWithinUnits(w: World, c: Call, sku: SkuRowId, units: nat)
    requires w.db.Valid() && sku in w.db.catalogue.skus && !w.db.catalogue.skus[sku].unlimited
    requires HonestRead(w, c, w.db.catalogue.skus[sku].skuId, units)
    requires |Holders(w.holdings, w.db.catalogue.skus[sku].skuId)| <= units
    ensures |Holders(Step(w, c).holdings, w.db.catalogue.skus[sku].skuId)| <= units
    ensures Step(w, c).db.catalogue == w.db.catalogue
  {
    SeatHistory.StepDrifts(w, c, sku);
    hide Drift, Holders, HonestRead, SeatHistory.BlindCall, Db.Valid, A.Outcome;
    if c.AssignLine? {
      AssignStaysWithinUnits(w, c.assignCall, c.answers, sku, units);
    } else {
      SeatHistory.OtherCallsMoveNoSeat(w, c);
    }
  }

  /** With honest reads no run of calls takes a metered SKU past its units. */
  lemma {:induction false} RunStaysWithinUnits(w: World, calls: seq<Call>, sku: SkuRowId, units: nat)
    requires w.db.Valid() && sku in w.db.catalogue.skus && !w.db.catalogue.skus[sku].unlimited
    requires HonestReads(w, calls, w.db.catalogue.skus[sku].skuId, units)
    requires |Holders(w.holdings, w.db.catalogue.skus[sku].skuId)| <= units
    ensures |Holders(Run(w, calls).holdings, w.db.catalogue.skus[sku].skuId)| <= units
    decreases |calls|
  {
    hide Step, HonestRead, Holders, Db.Valid;
    if calls != [] {
      StepStaysWithinUnits(w, calls[0], sku, units);
      RunStaysWithinUnits(Step(w, calls[0]), calls[1..], sku, units);
    }
  }
}
