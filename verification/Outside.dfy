/**
  The systems the platform calls: the M365 tenant and ServiceNow. Each call's answer
  is an argument of the step that makes it; what the calls leave behind is recorded here.
 */
module Outside {
  import opened Wrappers
  import opened Database

  /** One licence the provider was told to put on a user, and the request it was for. */
  datatype Grant = Grant(requestId: RequestId, targetUpn: string, skuId: string)

  /** How a ServiceNow ticket came to be opened; the id names the queue row the
      attempt left behind, if it left one. */
  datatype Via =
    | ViaCreate(failure: Option<FailureId>)
    | ViaLicence(requestId: RequestId, failure: Option<FailureId>)
    | ViaRetry(row: FailureId)

  /** What a submission asks for; the requester is named by sysId when the caller holds one. */
  datatype OrderLine = OrderLine(skuId: string, skuPartNumber: string, quantity: int)

  datatype Order = Order(targetUpn: string, opcoCode: string, requesterEmail: Option<string>, requesterSysId: Option<string>,
                         remark: Option<string>, lineItems: seq<OrderLine>)

  datatype Ticket = Ticket(sysId: string, via: Via, order: Order)

  /** The platform's tables together with what its calls have done outside. */
  datatype World = World(
    db: Db,
    holdings: set<(string, string)>,
    grants: seq<Grant>,
    tickets: seq<Ticket>
  )

  class Vendors {
    var holdings: set<(string, string)>
    var grants: seq<Grant>
    var tickets: seq<Ticket>

    constructor ()
      ensures holdings == {} && grants == [] && tickets == []
    {
      holdings, grants, tickets := {}, [], [];
    }
  }

  function WorldOf(db: Tables, vendors: Vendors): World
    reads db, vendors
  {
    World(db.State(), vendors.holdings, vendors.grants, vendors.tickets)
  }

  /** What a submission answers: nothing created, or one ticket with an item per line, in order. */
  datatype SubmittedLine = SubmittedLine(serviceNowSysId: string, serviceNowNumber: Option<string>)

  datatype SubmitOutcome =
    | SubmitThrows
    | Submitted(serviceNowSysId: string, serviceNowNumber: Option<string>, lineItems: seq<SubmittedLine>)
  {
    /** The provider's contract: it throws, or it names the ticket and every item. */
    predicate Honours(count: nat) {
      Submitted? ==>
        && serviceNowSysId != ""
        && |lineItems| == count
        && forall i :: 0 <= i < |lineItems| ==> lineItems[i].serviceNowSysId != ""
    }
  }
}
