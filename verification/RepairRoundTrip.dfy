/**
  A create whose local write failed, queued and later repaired, ends in the very
  rows the failed write would have stored.
 */
module RepairRoundTrip {
  import opened Wrappers
  import opened Json
  import opened Stages
  import opened Database
  import opened Outside
  import FailureQueue
  import IntakeService
  import OutboundRequest
  import OutboundRetry

  /** A name on the allow-list reads back from the stored bag as it was, unless it is secret. */
  lemma PickedReadsBack(source: Json, allowed: seq<string>, k: string)
    requires k in allowed && !FailureQueue.NeverStored(k)
    ensures Get(FailureQueue.Picked(source, allowed), k) == Get(ToBag(source), k)
  {
    hide FailureQueue.NeverStored;
  }

  /** A stored line list reads back item by item. */
  lemma PickedItemReadsBack(items: seq<Json>, allowed: seq<string>, i: nat, k: string)
    requires i < |items| && k in allowed && !FailureQueue.NeverStored(k)
    ensures Get(ToBag(FailureQueue.PickedItems(items, allowed)[i]), k) == Get(ToBag(items[i]), k)
  {
    PickedReadsBack(items[i], allowed, k);
    hide FailureQueue.NeverStored, FailureQueue.Picked;
  }

  /** The queued header is the submitted one, key by key. */
  lemma PayloadTextReadsBack(source: Json, kind: FailureKind, k: string)
    requires FailureQueue.CarriesLineItems(kind) && k in FailureQueue.PayloadKeys(kind)
    ensures Get(ToBag(FailureQueue.PickedPayload(kind, source)), k) == Get(ToBag(source), k)
  {
    hide FailureQueue.NeverStored, FailureQueue.Picked, FailureQueue.PickedItems;
    assert FailureQueue.PayloadKeys(kind) == FailureQueue.PayloadKeys(RequestMirror);
    FailureQueue.PayloadKeysAreStorable(k);
    PickedReadsBack(source, FailureQueue.PayloadKeys(kind), k);
  }

  /** The queued lines are the submitted ones, in order. */
  lemma PayloadLinesReadBack(source: Json, kind: FailureKind)
    requires FailureQueue.CarriesLineItems(kind)
    ensures OutboundRetry.PayloadLines(ToBag(FailureQueue.PickedPayload(kind, source))) == OutboundRetry.PayloadLines(ToBag(source))
  {
    hide FailureQueue.NeverStored, FailureQueue.Picked, FailureQueue.PickedItems;
    var stored := ToBag(FailureQueue.PickedPayload(kind, source));
    var items := Get(ToBag(source), "lineItems");
    if items.Arr? {
      LineItemsReadBack(items.items);
    } else {
      assert "lineItems" !in FailureQueue.PayloadKeys(kind);
      NotPicked(source, FailureQueue.PayloadKeys(kind), "lineItems");
    }
  }

  lemma NotPicked(source: Json, allowed: seq<string>, k: string)
    requires k !in allowed
    ensures k !in FailureQueue.Picked(source, allowed)
  {
    hide FailureQueue.NeverStored;
  }

  lemma LineItemsReadBack(items: seq<Json>)
    ensures |FailureQueue.PickedItems(items, FailureQueue.PAYLOAD_LINE_KEYS)| == |items|
    ensures forall i :: 0 <= i < |items| ==>
      OutboundRetry.PayloadLineOf(FailureQueue.PickedItems(items, FailureQueue.PAYLOAD_LINE_KEYS)[i]) == OutboundRetry.PayloadLineOf(items[i])
  {
    hide FailureQueue.NeverStored, FailureQueue.Picked;
    var keys := FailureQueue.PAYLOAD_LINE_KEYS;
    assert keys[0] == "skuId" && keys[1] == "skuPartNumber" && keys[2] == "quantity";
    forall i | 0 <= i < |items|
      ensures OutboundRetry.PayloadLineOf(FailureQueue.PickedItems(items, keys)[i]) == OutboundRetry.PayloadLineOf(items[i])
    {
      forall k | k in keys ensures Get(ToBag(FailureQueue.PickedItems(items, keys)[i]), k) == Get(ToBag(items[i]), k) {
        FailureQueue.LineKeysAreStorable(k);
        PickedItemReadsBack(items, keys, i, k);
      }
    }
  }

  /** The recorded side effects name the ticket and every item of it, in order. */
  lemma TicketRefsReadBack(outcome: SubmitOutcome)
    requires outcome.Submitted?
    ensures OutboundRetry.RecordedRefs(FailureQueue.PickedExternalRef(RequestMirror, OutboundRequest.TicketRef(outcome)))
         == OutboundRetry.SubmittedRefs(outcome)
  {
    hide FailureQueue.NeverStored, FailureQueue.Picked;
    var source := OutboundRequest.TicketRef(outcome);
    var keys := FailureQueue.ExternalKeys(RequestMirror);
    var lineKeys := FailureQueue.EXTERNAL_LINE_KEYS;
    assert keys == lineKeys && keys[0] == "serviceNowSysId" && keys[1] == "serviceNowNumber";
    forall k | k in keys ensures Get(FailureQueue.Picked(source, keys), k) == Get(ToBag(source), k) {
      FailureQueue.LineKeysAreStorable(k);
      PickedReadsBack(source, keys, k);
    }
    var items := Get(ToBag(source), "lineItems").items;
    forall i | 0 <= i < |items|
      ensures OutboundRetry.LineRefOf(FailureQueue.PickedItems(items, lineKeys)[i]) == OutboundRetry.SubmittedRefs(outcome).lineItems[i]
    {
      forall k | k in keys ensures Get(ToBag(FailureQueue.PickedItems(items, lineKeys)[i]), k) == Get(ToBag(items[i]), k) {
        FailureQueue.LineKeysAreStorable(k);
        PickedItemReadsBack(items, lineKeys, i, k);
      }
    }
    var stored := FailureQueue.Picked(source, keys)["lineItems" := Arr(FailureQueue.PickedItems(items, lineKeys))];
    assert "lineItems" in stored;
    assert FailureQueue.PickedExternalRef(RequestMirror, source) == Obj(stored);
    assert |"lineItems"| == 9 && |"serviceNowSysId"| == 15 && |"serviceNowNumber"| == 16;
    assert Get(stored, keys[0]) == Get(ToBag(source), keys[0]) && Get(stored, keys[1]) == Get(ToBag(source), keys[1]);
    assert OutboundRetry.RecordedRefs(Obj(stored)).lineItems == OutboundRetry.SubmittedRefs(outcome).lineItems;
  }

  /** The queue row a create leaves behind when only its local write failed. */
  function OrphanRow(catalogue: Catalogue, dto: OutboundRequest.CreateDto, outcome: SubmitOutcome): Failure
    requires OutboundRequest.AllOrderable(catalogue, dto.lineItems) && outcome.Submitted?
  {
    FailureQueue.NewFailure(RequestMirror, OutboundRequest.Payload(catalogue, dto), OutboundRequest.TicketRef(outcome), None)
  }

  lemma OrphanRowRepairsToTheMirrorRow(catalogue: Catalogue, dto: OutboundRequest.CreateDto, outcome: SubmitOutcome, opcoId: OpcoId)
    requires OutboundRequest.AllOrderable(catalogue, dto.lineItems) && outcome.Submitted?
    ensures var payload := ToBag(OrphanRow(catalogue, dto, outcome).payload);
      && ToText(Get(payload, "opcoCode")) == dto.opcoCode
      && OutboundRetry.RepairedRow(payload, opcoId, OutboundRetry.SubmittedRefs(outcome)) == OutboundRequest.MirrorRow(dto, opcoId, outcome)
  {
    hide FailureQueue.PickedPayload, FailureQueue.PickedExternalRef, OutboundRequest.Payload;
    var source := OutboundRequest.Payload(catalogue, dto);
    PayloadHeader(catalogue, dto);
    StoredHeader(source);
    hide FailureQueue.PayloadKeys;
  }

  /** The header of a payload is the header of its dto. */
  lemma PayloadHeader(catalogue: Catalogue, dto: OutboundRequest.CreateDto)
    requires OutboundRequest.AllOrderable(catalogue, dto.lineItems)
    ensures var bag := ToBag(OutboundRequest.Payload(catalogue, dto));
      && Get(bag, "targetUpn") == Str(dto.targetUpn) && Get(bag, "targetDisplayName") == OfOption(dto.targetDisplayName)
      && Get(bag, "opcoCode") == Str(dto.opcoCode) && Get(bag, "requesterEmail") == OfOption(dto.requesterEmail)
      && Get(bag, "remark") == OfOption(dto.remark)
  {
    hide OutboundRequest.SubmitLines, OfOption;
  }

  /** Every header key of a request row reads back. */
  lemma StoredHeader(source: Json)
    ensures var stored := ToBag(FailureQueue.PickedPayload(RequestMirror, source)); var bag := ToBag(source);
      && Get(stored, "targetUpn") == Get(bag, "targetUpn") && Get(stored, "targetDisplayName") == Get(bag, "targetDisplayName")
      && Get(stored, "opcoCode") == Get(bag, "opcoCode") && Get(stored, "requesterEmail") == Get(bag, "requesterEmail")
      && Get(stored, "remark") == Get(bag, "remark")
  {
    hide FailureQueue.PickedPayload;
    var keys := FailureQueue.PayloadKeys(RequestMirror);
    assert keys[0] == "targetUpn" && keys[1] == "targetDisplayName" && keys[2] == "opcoCode"
        && keys[3] == "requesterEmail" && keys[4] == "remark";
    forall k | k in keys ensures Get(ToBag(FailureQueue.PickedPayload(RequestMirror, source)), k) == Get(ToBag(source), k) {
      PayloadTextReadsBack(source, RequestMirror, k);
    }
  }

  lemma OrphanRowRepairsToTheMirrorLines(catalogue: Catalogue, current: Catalogue, dto: OutboundRequest.CreateDto, outcome: SubmitOutcome)
    requires OutboundRequest.AllOrderable(catalogue, dto.lineItems)
    requires outcome.Submitted? && outcome.Honours(|dto.lineItems|)
    requires current.skuByGuid == catalogue.skuByGuid && current.skus.Keys == catalogue.skus.Keys
    ensures var lines := OutboundRetry.PayloadLines(ToBag(OrphanRow(catalogue, dto, outcome).payload));
      && OutboundRetry.AllKnown(current, lines)
      && OutboundRetry.RepairedLines(current, lines, OutboundRetry.SubmittedRefs(outcome))
           == OutboundRequest.MirrorLines(catalogue, dto.lineItems, outcome)
  {
    hide FailureQueue.PickedPayload, FailureQueue.PickedExternalRef;
    var source := OutboundRequest.Payload(catalogue, dto);
    PayloadLinesReadBack(source, RequestMirror);
    var lines := OutboundRetry.PayloadLines(ToBag(source));
    assert forall i :: 0 <= i < |lines| ==> IntakeService.Orderable(catalogue, dto.lineItems[i].skuId) && lines[i].skuId == dto.lineItems[i].skuId;
  }

  /** The local write failed after a good submit; at any later time, with the SKU and OpCo
      rows still there and the ticket not mirrored yet, the repair stores the same request
      and the same lines, each with its own RITM. */
  lemma RepairBuildsWhatCreateWouldHave(catalogue: Catalogue, db: Db, id: FailureId, dto: OutboundRequest.CreateDto, outcome: SubmitOutcome)
    requires db.Valid() && OutboundRequest.AllOrderable(catalogue, dto.lineItems)
    requires outcome.Submitted? && outcome.Honours(|dto.lineItems|)
    requires db.catalogue.skuByGuid == catalogue.skuByGuid && db.catalogue.skus.Keys == catalogue.skus.Keys
    requires dto.opcoCode in db.catalogue.opcoByCode
    requires id < |db.failures|
    requires db.failures[id].payload == OrphanRow(catalogue, dto, outcome).payload
    requires db.failures[id].externalRef == OrphanRow(catalogue, dto, outcome).externalRef
    requires !db.SysIdTaken(Some(outcome.serviceNowSysId))
    ensures db.ValidLines(OutboundRequest.MirrorLines(catalogue, dto.lineItems, outcome))
    ensures OutboundRetry.RepairMirror(db, id, false) ==
      (db.CreateRequest(OutboundRequest.MirrorRow(dto, db.catalogue.opcoByCode[dto.opcoCode], outcome),
                        OutboundRequest.MirrorLines(catalogue, dto.lineItems, outcome)),
       Ok(|db.requests|))
  {
    hide FailureQueue.PickedPayload, FailureQueue.PickedExternalRef, OutboundRetry.RecordedRefs, OutboundRetry.PayloadLines,
         OutboundRetry.RepairedRow, OutboundRequest.Payload, OutboundRequest.TicketRef, Db.CreateRequest;
    var opcoId := db.catalogue.opcoByCode[dto.opcoCode];
    TicketRefsReadBack(outcome);
    OrphanRowRepairsToTheMirrorRow(catalogue, dto, outcome, opcoId);
    OrphanRowRepairsToTheMirrorLines(catalogue, db.catalogue, dto, outcome);
    var lines := OutboundRetry.PayloadLines(ToBag(db.failures[id].payload));
    assert forall i :: 0 <= i < |lines| ==> db.catalogue.skuByGuid[lines[i].skuId] in db.catalogue.skus;
  }
}
