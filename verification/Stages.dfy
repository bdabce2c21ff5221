/**
  The line-item stage graph and the request status derived from it
  (apps/api/src/fulfilment/stage.service.ts).
 */
module Stages {

  datatype Stage = Requested | Quoting | OpcoApproved | AwaitingVendor | Ready | Assigned | Cancelled

  datatype RequestStatus = Open | InProgress | Completed | CancelledStatus

  function LegalTransitions(from: Stage): set<Stage> {
    match from
    case Requested => {Quoting, Ready, Cancelled}
    case Quoting => {OpcoApproved, Cancelled}
    case OpcoApproved => {AwaitingVendor, Cancelled}
    case AwaitingVendor => {Ready, Cancelled}
    case Ready => {Cancelled}
    case Assigned => {}
    case Cancelled => {}
  }

  /** The stages whose entry stamps a timestamp column; `Assigned` stamps `assignedAt`. */
  predicate Stamped(stage: Stage) {
    stage in {Quoting, OpcoApproved, AwaitingVendor, Ready, Assigned}
  }

  function Active(stages: seq<Stage>): seq<Stage> {
    if stages == [] then []
    else if stages[0] != Cancelled then [stages[0]] + Active(stages[1..])
    else Active(stages[1..])
  }

  function AggregateRequestStatus(stages: seq<Stage>): RequestStatus {
    var active := Active(stages);
    if |stages| == 0 then Open
    else if |active| == 0 then CancelledStatus
    else if forall s :: s in active ==> s == Requested then Open
    else if forall s :: s in active ==> s == Assigned then Completed
    else InProgress
  }

  /** What a request's status means, stated on the set of stages its lines are in. */
  function StatusOf(stages: set<Stage>): RequestStatus {
    if stages <= {Requested, Cancelled} && (Requested in stages || stages == {}) then Open
    else if stages == {Cancelled} then CancelledStatus
    else if stages <= {Assigned, Cancelled} then Completed
    else InProgress
  }

  lemma {:induction false} ActiveMembers(stages: seq<Stage>)
    ensures forall s :: s in Active(stages) <==> s in stages && s != Cancelled
  {
    if stages != [] {
      ActiveMembers(stages[1..]);
      assert stages == [stages[0]] + stages[1..];
    }
  }

  /** The database returns a request's lines in no promised order, and repeats
      carry no weight: the aggregate depends on the set of stages alone. */
  lemma AggregateIgnoresOrder(stages: seq<Stage>)
    ensures AggregateRequestStatus(stages) == StatusOf(set s | s in stages)
  {
    ActiveMembers(stages);
    var all := set s | s in stages;
    var active := Active(stages);
    assert forall s :: s in active <==> s in all - {Cancelled};
    if stages == [] {
      assert all == {};
    } else if active == [] {
      assert stages[0] in all;
      assert all == {Cancelled};
    } else {
      assert active[0] in active;
      assert active[0] in all && active[0] != Cancelled;
      assert (forall s :: s in active ==> s == Requested) <==> all <= {Requested, Cancelled};
      assert (forall s :: s in active ==> s == Assigned) <==> all <= {Assigned, Cancelled};
    }
  }

  /** Completed means: at least one licence assigned, and every line either
      assigned or cancelled. */
  lemma CompletedMeansDelivered(stages: seq<Stage>)
    ensures AggregateRequestStatus(stages) == Completed
       <==> Assigned in stages && forall s :: s in stages ==> s == Assigned || s == Cancelled
  {
    AggregateIgnoresOrder(stages);
    var all := set s | s in stages;
    assert forall s :: s in stages <==> s in all;
    if all <= {Assigned, Cancelled} && Assigned !in all {
      assert all == {} || all == {Cancelled};
    }
  }
}
