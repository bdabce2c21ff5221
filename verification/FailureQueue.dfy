/**
  What the outbound failure queue may store, and the rows it stores
  (apps/api/src/fulfilment/outbound-failure-fields.ts, outbound-failure.service.ts).
 */
module FailureQueue {
  import opened Wrappers
  import opened Json
  import opened Database

  const NEVER_STORED: set<string> := {
    "passwordHash", "tokenHash", "password", "newPassword", "currentPassword",
    "secret", "apiKey", "accessToken", "refreshToken"
  }

  function LowerCase(c: char): char {
    if 'A' <= c <= 'Z' then (c as int + 32) as char else c
  }

  predicate EndsWithIgnoringCase(s: string, suffix: string) {
    && |suffix| <= |s|
    && forall i :: 0 <= i < |suffix| ==> LowerCase(s[|s| - |suffix| + i]) == suffix[i]
  }

  /** The secret names that win over any allow-list. */
  predicate NeverStored(key: string) {
    key in NEVER_STORED || EndsWithIgnoringCase(key, "hash") || EndsWithIgnoringCase(key, "secret")
  }

  function PayloadKeys(kind: FailureKind): seq<string> {
    match kind
    case RequestSubmit => ["targetUpn", "targetDisplayName", "opcoCode", "requesterEmail", "remark"]
    case RequestMirror => ["targetUpn", "targetDisplayName", "opcoCode", "requesterEmail", "remark"]
    case WorkNote => ["snTarget", "note", "table"]
    case TicketUpdate => ["snTarget", "targetKind", "note", "transition"]
    case Notification => ["to", "template"]
  }

  const PAYLOAD_LINE_KEYS: seq<string> := ["skuId", "skuPartNumber", "quantity"]

  predicate CarriesLineItems(kind: FailureKind) {
    kind == RequestSubmit || kind == RequestMirror
  }

  function ExternalKeys(kind: FailureKind): seq<string> {
    match kind
    case RequestMirror => ["serviceNowSysId", "serviceNowNumber"]
    case _ => []
  }

  const EXTERNAL_LINE_KEYS: seq<string> := ["serviceNowSysId", "serviceNowNumber"]

  /** The entries of `source` an allow-list lets through. */
  function Picked(source: Json, allowed: seq<string>): map<string, Json> {
    var bag := ToBag(source);
    map k | k in bag && k in allowed && !NeverStored(k) && bag[k] != Undefined :: bag[k]
  }

  method PickKeys(source: Json, allowed: seq<string>) returns (out: map<string, Json>)
    ensures out == Picked(source, allowed)
  {
    out := map[];
    if !source.Obj? {
      return;
    }
    var bag := source.fields;
    for i := 0 to |allowed|
      invariant out == Picked(source, allowed[..i])
    {
      var key := allowed[i];
      assert allowed[..i + 1] == allowed[..i] + [key];
      if !NeverStored(key) && key in bag && bag[key] != Undefined {
        out := out[key := bag[key]];
      }
    }
    assert allowed[..|allowed|] == allowed;
  }

  function PickedItems(items: seq<Json>, allowed: seq<string>): seq<Json> {
    seq(|items|, i requires 0 <= i < |items| => Obj(Picked(items[i], allowed)))
  }

  method PickItems(items: seq<Json>, allowed: seq<string>) returns (out: seq<Json>)
    ensures out == PickedItems(items, allowed)
  {
    out := [];
    for i := 0 to |items|
      invariant out == PickedItems(items, allowed)[..i]
    {
      var picked := PickKeys(items[i], allowed);
      out := out + [Obj(picked)];
    }
  }

  function PickedPayload(kind: FailureKind, source: Json): Json {
    var out := Picked(source, PayloadKeys(kind));
    var items := Get(ToBag(source), "lineItems");
    Obj(if CarriesLineItems(kind) && items.Arr?
        then out["lineItems" := Arr(PickedItems(items.items, PAYLOAD_LINE_KEYS))] else out)
  }

  method PickFailurePayload(kind: FailureKind, source: Json) returns (out: Json)
    ensures out == PickedPayload(kind, source)
  {
    var bag := PickKeys(source, PayloadKeys(kind));
    var items := Get(ToBag(source), "lineItems");
    if CarriesLineItems(kind) && items.Arr? {
      var picked := PickItems(items.items, PAYLOAD_LINE_KEYS);
      bag := bag["lineItems" := Arr(picked)];
    }
    return Obj(bag);
  }

  function PickedExternalRef(kind: FailureKind, source: Json): Json {
    if |ExternalKeys(kind)| == 0 then Undefined
    else
      var out := Picked(source, ExternalKeys(kind));
      var items := Get(ToBag(source), "lineItems");
      var withItems := if items.Arr? then out["lineItems" := Arr(PickedItems(items.items, EXTERNAL_LINE_KEYS))] else out;
      if withItems == map[] then Undefined else Obj(withItems)
  }

  method PickFailureExternalRef(kind: FailureKind, source: Json) returns (out: Json)
    ensures out == PickedExternalRef(kind, source)
  {
    if |ExternalKeys(kind)| == 0 {
      return Undefined;
    }
    var bag := PickKeys(source, ExternalKeys(kind));
    var items := Get(ToBag(source), "lineItems");
    if items.Arr? {
      var picked := PickItems(items.items, EXTERNAL_LINE_KEYS);
      bag := bag["lineItems" := Arr(picked)];
    }
    if bag == map[] {
      return Undefined;
    }
    return Obj(bag);
  }

  /** A new queue row. `attemptCount` takes its column default, 1. */
  function NewFailure(kind: FailureKind, payload: Json, externalRef: Json, requestId: Option<RequestId>): Failure {
    Failure(kind, QueueOpen, PickedPayload(kind, payload), PickedExternalRef(kind, externalRef), 1, requestId, None)
  }

  function Recorded(db: Db, kind: FailureKind, payload: Json, externalRef: Json, requestId: Option<RequestId>): (after: Db)
    requires db.Valid()
    ensures after.Valid()
  {
    db.(failures := db.failures + [NewFailure(kind, payload, externalRef, requestId)])
  }

  method Record(db: Tables, kind: FailureKind, payload: Json, externalRef: Json, requestId: Option<RequestId>)
    requires db.State().Valid()
    modifies db
    ensures db.State() == Recorded(old(db.State()), kind, payload, externalRef, requestId)
  {
    var storedPayload := PickFailurePayload(kind, payload);
    var storedRef := PickFailureExternalRef(kind, externalRef);
    db.failures := db.failures + [Failure(kind, QueueOpen, storedPayload, storedRef, 1, requestId, None)];
  }

  function WithFailure(db: Db, id: FailureId, row: Failure): (after: Db)
    requires db.Valid() && id < |db.failures|
    ensures after.Valid()
  {
    db.(failures := db.failures[id := row])
  }

  method MarkResolved(db: Tables, id: FailureId, actorId: string)
    requires db.State().Valid() && id < |db.failures|
    modifies db
    ensures db.State() == WithFailure(old(db.State()), id,
      old(db.failures[id]).(status := Resolved, resolvedById := Some(actorId), attemptCount := old(db.failures[id]).attemptCount + 1))
  {
    var row := db.failures[id];
    db.failures := db.failures[id := row.(status := Resolved, resolvedById := Some(actorId), attemptCount := row.attemptCount + 1)];
  }

  method MarkAttemptFailed(db: Tables, id: FailureId)
    requires db.State().Valid() && id < |db.failures|
    modifies db
    ensures db.State() == WithFailure(old(db.State()), id,
      old(db.failures[id]).(attemptCount := old(db.failures[id]).attemptCount + 1))
  {
    var row := db.failures[id];
    db.failures := db.failures[id := row.(attemptCount := row.attemptCount + 1)];
  }

  method MarkAbandoned(db: Tables, id: FailureId, actorId: string)
    requires db.State().Valid() && id < |db.failures|
    modifies db
    ensures db.State() == WithFailure(old(db.State()), id,
      old(db.failures[id]).(status := Abandoned, resolvedById := Some(actorId)))
  {
    db.failures := db.failures[id := db.failures[id].(status := Abandoned, resolvedById := Some(actorId))];
  }

  method Reopen(db: Tables, id: FailureId)
    requires db.State().Valid() && id < |db.failures|
    modifies db
    ensures db.State() == WithFailure(old(db.State()), id,
      old(db.failures[id]).(status := QueueOpen, resolvedById := None))
  {
    db.failures := db.failures[id := db.failures[id].(status := QueueOpen, resolvedById := None)];
  }

  lemma SuffixFixesLastLetter(k: string, suffix: string)
    requires k != "" && suffix != ""
    ensures EndsWithIgnoringCase(k, suffix) ==> LowerCase(k[|k| - 1]) == suffix[|suffix| - 1]
  {
    assert |k| - |suffix| + (|suffix| - 1) == |k| - 1;
  }

  /** A name is storable when it opens differently from every listed secret and
      ends in neither of the forbidden suffixes. */
  lemma NotASecretName(k: string)
    requires |k| >= 3 && k[..3] !in {"pas", "tok", "new", "cur", "sec", "api", "acc", "ref"}
    requires LowerCase(k[|k| - 1]) != 'h' && LowerCase(k[|k| - 1]) != 't'
    ensures !NeverStored(k)
  {
    SuffixFixesLastLetter(k, "hash");
    SuffixFixesLastLetter(k, "secret");
    assert forall s :: s in NEVER_STORED ==> |s| >= 3 && s[..3] in {"pas", "tok", "new", "cur", "sec", "api", "acc", "ref"} by {
      assert "passwordHash"[..3] == "pas" && "tokenHash"[..3] == "tok" && "password"[..3] == "pas";
      assert "newPassword"[..3] == "new" && "currentPassword"[..3] == "cur" && "secret"[..3] == "sec";
      assert "apiKey"[..3] == "api" && "accessToken"[..3] == "acc" && "refreshToken"[..3] == "ref";
    }
  }

  lemma StorableOpening(k: string, a: char, b: char, c: char)
    requires |k| >= 3 && k[0] == a && k[1] == b && k[2] == c
    requires [a, b, c] !in {"pas", "tok", "new", "cur", "sec", "api", "acc", "ref"}
    requires LowerCase(k[|k| - 1]) != 'h' && LowerCase(k[|k| - 1]) != 't'
    ensures !NeverStored(k)
  {
    assert k[..3] == [a, b, c];
    NotASecretName(k);
  }

  lemma PayloadKeysAreStorable(k: string)
    requires k in PayloadKeys(RequestMirror)
    ensures !NeverStored(k)
  {
    if k == "targetUpn" { StorableOpening(k, 't', 'a', 'r'); }
    if k == "targetDisplayName" { StorableOpening(k, 't', 'a', 'r'); }
    if k == "opcoCode" { StorableOpening(k, 'o', 'p', 'c'); }
    if k == "requesterEmail" { StorableOpening(k, 'r', 'e', 'q'); }
    if k == "remark" { StorableOpening(k, 'r', 'e', 'm'); }
  }

  lemma LineKeysAreStorable(k: string)
    requires k in PAYLOAD_LINE_KEYS || k in EXTERNAL_LINE_KEYS
    ensures !NeverStored(k)
  {
    if k == "skuId" { StorableOpening(k, 's', 'k', 'u'); }
    if k == "skuPartNumber" { StorableOpening(k, 's', 'k', 'u'); }
    if k == "quantity" { StorableOpening(k, 'q', 'u', 'a'); }
    if k == "serviceNowSysId" { StorableOpening(k, 's', 'e', 'r'); }
    if k == "serviceNowNumber" { StorableOpening(k, 's', 'e', 'r'); }
  }

  /** Only these names, and none of the secret ones. */
  predicate Allowed(bag: map<string, Json>, names: seq<string>) {
    forall k :: k in bag ==> k in names && !NeverStored(k)
  }

  /** A header that keeps to its names, with lines that keep to theirs if it may have lines at all. */
  predicate AllowedBag(bag: map<string, Json>, names: seq<string>, lineNames: seq<string>, lined: bool) {
    && Allowed(bag - {"lineItems"}, names)
    && ("lineItems" in bag ==> lined && bag["lineItems"].Arr?)
    && forall i :: 0 <= i < |ToList(Get(bag, "lineItems"))| ==> Allowed(ToBag(ToList(Get(bag, "lineItems"))[i]), lineNames)
  }

  /** Every bag a row stores, headers and lines alike, keeps to its allow-list. Only a request
      row has lines, and only a mirror row has references. */
  predicate AllowedRow(row: Failure) {
    && AllowedBag(ToBag(row.payload), PayloadKeys(row.kind), PAYLOAD_LINE_KEYS, CarriesLineItems(row.kind))
    && AllowedBag(ToBag(row.externalRef), ExternalKeys(row.kind), EXTERNAL_LINE_KEYS, row.kind == RequestMirror)
  }

  lemma PickedIsAllowed(source: Json, names: seq<string>)
    ensures Allowed(Picked(source, names), names)
  {
    hide NeverStored;
  }

  lemma PickedItemsAreAllowed(items: seq<Json>, names: seq<string>)
    ensures |PickedItems(items, names)| == |items|
    ensures forall i :: 0 <= i < |items| ==> Allowed(ToBag(PickedItems(items, names)[i]), names)
  {
    forall i | 0 <= i < |items| ensures Allowed(ToBag(PickedItems(items, names)[i]), names) {
      PickedIsAllowed(items[i], names);
    }
  }

  lemma LineItemsIsNoHeader(kind: FailureKind)
    ensures "lineItems" !in PayloadKeys(kind) && "lineItems" !in ExternalKeys(kind)
  {
    assert |"lineItems"| == 9;
    assert kind == TicketUpdate ==> PayloadKeys(kind)[1] == "targetKind";
    assert "targetUpn"[0] == 't' && "lineItems"[0] == 'l';
  }

  /** Nothing outside a kind's allow-lists, and no key with a secret name, is ever stored:
      not in the payload, not in the references, and not in any line of either. */
  lemma StoredRowIsAllowed(kind: FailureKind, payload: Json, externalRef: Json, requestId: Option<RequestId>)
    ensures AllowedRow(NewFailure(kind, payload, externalRef, requestId))
  {
    PickedPayloadIsAllowed(kind, payload);
    PickedReferenceIsAllowed(kind, externalRef);
    hide AllowedBag, PickedPayload, PickedExternalRef, CarriesLineItems;
  }

  lemma PickedPayloadIsAllowed(kind: FailureKind, source: Json)
    ensures AllowedBag(ToBag(PickedPayload(kind, source)), PayloadKeys(kind), PAYLOAD_LINE_KEYS, CarriesLineItems(kind))
  {
    var items := ToList(Get(ToBag(source), "lineItems"));
    PickedIsAllowed(source, PayloadKeys(kind));
    PickedItemsAreAllowed(items, PAYLOAD_LINE_KEYS);
    LineItemsIsNoHeader(kind);
    hide NeverStored, Picked, PickedItems, PayloadKeys;
    WithLinesIsAllowed(Picked(source, PayloadKeys(kind)), PickedItems(items, PAYLOAD_LINE_KEYS), PayloadKeys(kind), PAYLOAD_LINE_KEYS, CarriesLineItems(kind));
    hide AllowedBag;
  }

  lemma PickedReferenceIsAllowed(kind: FailureKind, source: Json)
    ensures AllowedBag(ToBag(PickedExternalRef(kind, source)), ExternalKeys(kind), EXTERNAL_LINE_KEYS, kind == RequestMirror)
  {
    var items := ToList(Get(ToBag(source), "lineItems"));
    PickedIsAllowed(source, ExternalKeys(kind));
    PickedItemsAreAllowed(items, EXTERNAL_LINE_KEYS);
    LineItemsIsNoHeader(kind);
    assert |ExternalKeys(kind)| > 0 ==> kind == RequestMirror;
    hide NeverStored, Picked, PickedItems, ExternalKeys;
    WithLinesIsAllowed(Picked(source, ExternalKeys(kind)), PickedItems(items, EXTERNAL_LINE_KEYS), ExternalKeys(kind), EXTERNAL_LINE_KEYS, kind == RequestMirror);
    WithLinesIsAllowed(map[], [], ExternalKeys(kind), EXTERNAL_LINE_KEYS, kind == RequestMirror);
    hide AllowedBag;
  }

  /** A projected header is an allowed bag, with projected lines or without any. */
  lemma WithLinesIsAllowed(bag: map<string, Json>, items: seq<Json>, names: seq<string>, lineNames: seq<string>, lined: bool)
    requires Allowed(bag, names) && "lineItems" !in names
    requires forall i :: 0 <= i < |items| ==> Allowed(ToBag(items[i]), lineNames)
    ensures AllowedBag(bag, names, lineNames, lined)
    ensures lined ==> AllowedBag(bag["lineItems" := Arr(items)], names, lineNames, lined)
  {
    hide NeverStored;
    assert "lineItems" !in bag;
    assert bag["lineItems" := Arr(items)] - {"lineItems"} == bag && bag - {"lineItems"} == bag;
  }
}
