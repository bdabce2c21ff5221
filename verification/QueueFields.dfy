/** What a queue row stores of what it is given, name by name, and what each decision does to it. */
module QueueFields {
  import opened Wrappers
  import opened Json
  import opened Database
  import opened Outside
  import F = FailureQueue
  import R = OutboundRetry

  // ── names ──

  /** The text is this word, in capitals, in small letters or in both. */
  predicate Spells(s: string, word: string) {
    |s| == |word| && forall i :: 0 <= i < |s| ==> s[i] == word[i] || s[i] as int == word[i] as int - 32
  }

  /** A name that must never be stored: one of nine, or one that ends in "hash" or "secret". */
  predicate Secret(key: string) {
    || key in {"passwordHash", "tokenHash", "password", "newPassword", "currentPassword", "secret", "apiKey", "accessToken", "refreshToken"}
    || (|key| >= 4 && Spells(key[|key| - 4..], "hash"))
    || (|key| >= 6 && Spells(key[|key| - 6..], "secret"))
  }

  lemma SpellsMeans(key: string, word: string)
    requires forall i :: 0 <= i < |word| ==> 'a' <= word[i] <= 'z'
    ensures F.EndsWithIgnoringCase(key, word) <==> |word| <= |key| && Spells(key[|key| - |word|..], word)
  {
    if |word| <= |key| {
      var end := key[|key| - |word|..];
      forall i | 0 <= i < |word|
        ensures F.LowerCase(key[|key| - |word| + i]) == word[i] <==> end[i] == word[i] || end[i] as int == word[i] as int - 32
      {
        assert end[i] == key[|key| - |word| + i];
      }
    }
  }

  lemma SecretMeans(key: string)
    ensures F.NeverStored(key) <==> Secret(key)
  {
    SpellsMeans(key, "hash");
    SpellsMeans(key, "secret");
    hide F.EndsWithIgnoringCase, Spells;
  }

  /** The names each kind of row keeps. */
  function Names(kind: FailureKind): set<string> {
    match kind
    case RequestSubmit => {"targetUpn", "targetDisplayName", "opcoCode", "requesterEmail", "remark"}
    case RequestMirror => {"targetUpn", "targetDisplayName", "opcoCode", "requesterEmail", "remark"}
    case WorkNote => {"snTarget", "note", "table"}
    case TicketUpdate => {"snTarget", "targetKind", "note", "transition"}
    case Notification => {"to", "template"}
  }

  const LINE_NAMES: set<string> := {"skuId", "skuPartNumber", "quantity"}
  const TICKET_NAMES: set<string> := {"serviceNowSysId", "serviceNowNumber"}

  lemma NamesMean(kind: FailureKind, k: string)
    ensures k in F.PayloadKeys(kind) <==> k in Names(kind)
    ensures k in F.PAYLOAD_LINE_KEYS <==> k in LINE_NAMES
    ensures k in F.EXTERNAL_LINE_KEYS <==> k in TICKET_NAMES
    ensures k in F.ExternalKeys(kind) <==> kind == RequestMirror && k in TICKET_NAMES
  {
  }

  /** A bag keeps its values under these names, and only under these. */
  ghost predicate Keeps(stored: map<string, Json>, source: Json, names: set<string>) {
    forall k :: Get(stored, k) == if k in names && !Secret(k) then Get(ToBag(source), k) else Undefined
  }

  lemma PickedKeeps(source: Json, allowed: seq<string>, names: set<string>)
    requires forall k :: k in allowed <==> k in names
    ensures Keeps(F.Picked(source, allowed), source, names)
  {
    hide F.NeverStored, Secret;
    forall k ensures F.NeverStored(k) <==> Secret(k) {
      SecretMeans(k);
    }
  }

  /** The lines of a stored bag are those it came from, one by one, under these names. */
  ghost predicate LinesKept(stored: Json, source: Json, names: set<string>) {
    && stored.Arr? && source.Arr? && |stored.items| == |source.items|
    && forall i :: 0 <= i < |stored.items| ==> Keeps(ToBag(stored.items[i]), source.items[i], names)
  }

  lemma ItemsKeep(items: seq<Json>, allowed: seq<string>, names: set<string>)
    requires forall k :: k in allowed <==> k in names
    ensures LinesKept(Arr(F.PickedItems(items, allowed)), Arr(items), names)
  {
    forall i | 0 <= i < |items| ensures Keeps(ToBag(F.PickedItems(items, allowed)[i]), items[i], names) {
      PickedKeeps(items[i], allowed, names);
    }
  }

  /** Of its message a row stores exactly the values under its kind's names, and, for the two request
      kinds, the lines with three names each. */
  lemma PayloadStores(kind: FailureKind, source: Json)
    ensures F.PickedPayload(kind, source).Obj?
    ensures var lines := Get(ToBag(source), "lineItems");
      Stores(F.PickedPayload(kind, source).fields, source, Names(kind), if kind in {RequestSubmit, RequestMirror} then lines else Undefined, LINE_NAMES)
  {
    forall k ensures k in F.PayloadKeys(kind) <==> k in Names(kind) ensures k in F.PAYLOAD_LINE_KEYS <==> k in LINE_NAMES {
      NamesMean(kind, k);
    }
    F.LineItemsIsNoHeader(kind);
    hide F.Picked, F.PickedItems, Keeps, Stores, Names, F.PayloadKeys;
    HeaderStores(source, F.PayloadKeys(kind), Names(kind), F.PAYLOAD_LINE_KEYS, LINE_NAMES);
  }

  /** The references of a ticket are stored for a mirror row only: the ticket's own, and its items'. */
  lemma ReferencesStore(kind: FailureKind, source: Json)
    ensures var stored := F.PickedExternalRef(kind, source);
      if kind == RequestMirror then
        Stores(ToBag(stored), source, TICKET_NAMES, Get(ToBag(source), "lineItems"), TICKET_NAMES) && (stored.Undefined? || stored.Obj?)
      else stored == Undefined
  {
    forall k ensures k in F.ExternalKeys(kind) <==> kind == RequestMirror && k in TICKET_NAMES ensures k in F.EXTERNAL_LINE_KEYS <==> k in TICKET_NAMES {
      NamesMean(kind, k);
    }
    F.LineItemsIsNoHeader(kind);
    hide F.Picked, F.PickedItems, Keeps, Stores;
    if kind == RequestMirror {
      HeaderStores(source, F.ExternalKeys(kind), TICKET_NAMES, F.EXTERNAL_LINE_KEYS, TICKET_NAMES);
    }
  }

  /** A stored bag keeps its names, and the lines it is given when they are a list. */
  ghost predicate Stores(stored: map<string, Json>, source: Json, names: set<string>, lines: Json, lineNames: set<string>) {
    && Keeps(stored - {"lineItems"}, source, names)
    && (if lines.Arr? then LinesKept(Get(stored, "lineItems"), lines, lineNames) else "lineItems" !in stored)
  }

  lemma HeaderStores(source: Json, allowed: seq<string>, names: set<string>, lineAllowed: seq<string>, lineNames: set<string>)
    requires "lineItems" !in allowed
    requires (forall k :: k in allowed <==> k in names) && (forall k :: k in lineAllowed <==> k in lineNames)
    ensures var bag := F.Picked(source, allowed); var lines := Get(ToBag(source), "lineItems");
      && Stores(bag, source, names, Undefined, lineNames)
      && (lines.Arr? ==> Stores(bag["lineItems" := Arr(F.PickedItems(lines.items, lineAllowed))], source, names, lines, lineNames))
  {
    hide F.Picked, F.PickedItems, Keeps, LinesKept;
    PickedKeeps(source, allowed, names);
    var bag := F.Picked(source, allowed);
    NotPickedIsAbsent(source, allowed, "lineItems");
    assert bag - {"lineItems"} == bag;
    var lines := Get(ToBag(source), "lineItems");
    if lines.Arr? {
      ItemsKeep(lines.items, lineAllowed, lineNames);
      var withLines := bag["lineItems" := Arr(F.PickedItems(lines.items, lineAllowed))];
      assert withLines - {"lineItems"} == bag;
    }
  }

  lemma NotPickedIsAbsent(source: Json, allowed: seq<string>, k: string)
    requires k !in allowed
    ensures k !in F.Picked(source, allowed)
  {
    hide F.NeverStored;
  }

  /** Every name on a list is storable, so what a row is meant to keep it keeps. */
  lemma NamesAreStorable(kind: FailureKind, k: string)
    requires k in Names(kind) + LINE_NAMES + TICKET_NAMES
    ensures !Secret(k)
  {
    SecretMeans(k);
    hide Secret, F.NeverStored;
    if k in {"snTarget"} {
      QueuedTargets();
    } else if k == "to" {
      ToIsStorable();
    } else if k == "template" {
      F.StorableOpening(k, 't', 'e', 'm');
    } else if k in {"targetKind", "targetUpn", "targetDisplayName"} {
      F.StorableOpening(k, 't', 'a', 'r');
    } else if k == "note" {
      F.StorableOpening(k, 'n', 'o', 't');
    } else if k == "transition" {
      F.StorableOpening(k, 't', 'r', 'a');
    } else if k == "table" {
      F.StorableOpening(k, 't', 'a', 'b');
    } else if k in LINE_NAMES + TICKET_NAMES {
      NamesMean(kind, k);
      F.LineKeysAreStorable(k);
    } else {
      NamesMean(RequestMirror, k);
      F.PayloadKeysAreStorable(k);
    }
  }

  lemma QueuedTargets()
    ensures !F.NeverStored("snTarget")
  {
    var k := "snTarget";
    F.SuffixFixesLastLetter(k, "hash");
    assert F.LowerCase(k[|k| - |"secret"| + 0]) != "secret"[0];
    assert k[1] == 'n';
    assert forall s :: s in F.NEVER_STORED ==> |s| > 1 && s[1] != 'n' by {
      assert "passwordHash"[1] == 'a' && "tokenHash"[1] == 'o' && "password"[1] == 'a' && "newPassword"[1] == 'e';
      assert "currentPassword"[1] == 'u' && "secret"[1] == 'e' && "apiKey"[1] == 'p' && "accessToken"[1] == 'c' && "refreshToken"[1] == 'e';
    }
  }

  lemma ToIsStorable()
    ensures !F.NeverStored("to")
  {
    assert |"to"| == 2 && |"hash"| == 4 && |"secret"| == 6;
    assert forall s :: s in F.NEVER_STORED ==> |s| > 2 by {
      assert |"passwordHash"| == 12 && |"tokenHash"| == 9 && |"password"| == 8 && |"newPassword"| == 11;
      assert |"currentPassword"| == 15 && |"secret"| == 6 && |"apiKey"| == 6 && |"accessToken"| == 11 && |"refreshToken"| == 12;
    }
  }

  // ── decisions ──

  /** A row that is there and not resolved can be retried or abandoned. */
  predicate Undecided(db: Db, id: nat) {
    id < |db.failures| && db.failures[id].status != Resolved
  }

  /** A retry counts one attempt, and closes the row in the actor's name exactly when it succeeded;
      every other row, and this one's contents, stay as they are. */
  lemma RetryRecords(w: World, id: nat, actor: Actor, o: R.RepairOracle)
    requires w.db.Valid()
    ensures var (after, error) := R.Retry(w, id, actor, o);
      if !Undecided(w.db, id) then (after, error) == (w, Some(if id < |w.db.failures| then BadRequest else NotFound))
      else
        var row := w.db.failures[id];
        after.db.failures == w.db.failures[id :=
          if error == None then row.(attemptCount := row.attemptCount + 1, status := Resolved, resolvedById := Some(actor.id))
          else row.(attemptCount := row.attemptCount + 1)]
  {
    hide R.Repair, Db.Valid;
  }

  /** A row is abandoned in the actor's name, without an attempt. */
  lemma AbandonsExactlyWhen(w: World, id: nat, actor: Actor)
    requires w.db.Valid()
    ensures R.Abandon(w, id, actor) ==
      if Undecided(w.db, id) then
        (w.(db := w.db.(failures := w.db.failures[id := w.db.failures[id].(status := Abandoned, resolvedById := Some(actor.id))])), None)
      else (w, Some(if id < |w.db.failures| then BadRequest else NotFound))
  {
  }

  /** Only an abandoned row is reopened, and then nobody has decided it. */
  lemma ReopensExactlyWhen(w: World, id: nat)
    requires w.db.Valid()
    ensures R.Reopen(w, id) ==
      if id >= |w.db.failures| then (w, Some(NotFound))
      else if w.db.failures[id].status != Abandoned then (w, Some(BadRequest))
      else (w.(db := w.db.(failures := w.db.failures[id := w.db.failures[id].(status := QueueOpen, resolvedById := None)])), None)
  {
  }

  /** Each repair has its own way to fail. A submission that throws changes nothing; one that goes
      through is a ticket for the order the row holds, whatever the local write then does. A mirror
      row without a reference is refused. */
  lemma RepairDoes(w: World, id: FailureId, o: R.RepairOracle)
    requires w.db.Valid() && id < |w.db.failures|
    ensures var row := w.db.failures[id]; var bag := ToBag(row.payload); var (after, error) := R.Repair(w, id, o);
      match row.kind
      case RequestSubmit =>
        if o.submit == SubmitThrows then (after, error) == (w, Some(Unavailable))
        else
          && after == w.(db := after.db, tickets := w.tickets + [Ticket(o.submit.serviceNowSysId, ViaRetry(id), R.RepairOrder(bag))])
          && MirrorWritten(w.db, after.db, bag, R.SubmittedRefs(o.submit), o.localWriteFails, error)
      case RequestMirror =>
        if R.RecordedRefs(row.externalRef).serviceNowSysId == "" then (after, error) == (w, Some(BadRequest))
        else after == w.(db := after.db) && MirrorWritten(w.db, after.db, bag, R.RecordedRefs(row.externalRef), o.localWriteFails, error)
      case WorkNote => after == w && error in {None, Some(Unavailable)}
      case _ => after == w && error in {None, Some(BadRequest)}
  {
    hide R.RecordedRefs, R.SubmittedRefs, R.RepairOrder, R.Replays, R.RepairedRow, R.RepairedLines, R.PayloadLines, NumberedLines, Db.Valid;
  }

  /** A mirror is written unless its OpCo or one of its SKUs is unknown, or the write fails; a ticket
      that is mirrored already is good as it is. */
  ghost predicate MirrorWritten(before: Db, after: Db, bag: map<string, Json>, refs: R.MirrorRefs, fails: bool, error: Option<Error>) {
    if ToText(Get(bag, "opcoCode")) !in before.catalogue.opcoByCode then after == before && error == Some(BadRequest)
    else if refs.serviceNowSysId in before.requestBySysId then after == before && error == None
    else if !R.AllKnown(before.catalogue, R.PayloadLines(bag)) then after == before && error == Some(BadRequest)
    else if fails then after == before && error == Some(DatabaseError)
    else |after.requests| == |before.requests| + 1 && error == None
  }

  /** A note goes to the record and the table its row names, and to the RITM table when it names none. */
  lemma NoteIsReplayedTo(row: Failure)
    requires row.kind == WorkNote
    ensures var bag := ToBag(row.payload); var table := Get(bag, "table");
      R.ReplayOf(row) == Some(R.AddWorkNote(ToText(Get(bag, "snTarget")), ToText(Get(bag, "note")),
        if table == Undefined || table == Null then "sc_req_item" else ToText(table)))
  {
  }

  /** A ticket is moved if and only if its row names it and says close or hold: a task when the row says
      so, and otherwise a RITM. */
  lemma MoveIsReplayedExactlyWhen(row: Failure)
    requires row.kind == TicketUpdate
    ensures var bag := ToBag(row.payload); var sysId, note := ToText(Get(bag, "snTarget")), ToText(Get(bag, "note"));
      var target := if Get(bag, "targetKind") == Str("task") then R.Task(sysId) else R.Ritm(sysId);
      R.ReplayOf(row) ==
        if sysId != "" && Get(bag, "transition") == Str("close") then Some(R.CloseComplete(target, note))
        else if sysId != "" && Get(bag, "transition") == Str("hold") then Some(R.MarkInProgress(target, note))
        else None
  {
  }

  /** A mail is sent again only for the one template that needs no parameters. */
  lemma MailIsReplayedExactlyWhen(row: Failure)
    requires row.kind == Notification
    ensures var bag := ToBag(row.payload);
      R.ReplayOf(row) ==
        if ToText(Get(bag, "to")) != "" && Get(bag, "template") == Str("connectivity-check")
        then Some(R.Send(ToText(Get(bag, "to")), "connectivity-check")) else None
  {
  }
}
