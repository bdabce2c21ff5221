/**
  The words the laws are stated in, said on the rows themselves: who may touch what, what
  can be ordered, what is blank. Each is shown to be what the services' own tests decide.
 */
module Terms {
  import opened Wrappers
  import opened Database
  import Assign
  import IntakeService

  /** An actor without an OpCo scope may touch every OpCo, one with a scope only its own. */
  predicate MayTouch(actor: Actor, opcoId: OpcoId) {
    actor.opcoScope == None || actor.opcoScope == Some("") || actor.opcoScope == Some(opcoId)
  }

  lemma ScopeMeans(actor: Actor, opcoId: OpcoId)
    ensures InScope(actor, opcoId) <==> MayTouch(actor, opcoId)
  {
  }

  /** The catalogue has an active row with this GUID. */
  predicate CanOrder(catalogue: Catalogue, guid: string) {
    exists s :: s in catalogue.skus && catalogue.skus[s].skuId == guid && catalogue.skus[s].active
  }

  lemma OrderableMeans(catalogue: Catalogue, guid: string)
    requires catalogue.Valid()
    ensures IntakeService.Orderable(catalogue, guid) <==> CanOrder(catalogue, guid)
    ensures CanOrder(catalogue, guid) ==> guid in catalogue.skuByGuid
    ensures CanOrder(catalogue, guid) ==> catalogue.skus[catalogue.skuByGuid[guid]].skuId == guid
  {
  }

  /** A text is there and not empty. */
  predicate Filled(s: Option<string>) {
    s != None && s != Some("")
  }

  /** Something is left of the text when its spaces are trimmed. */
  predicate Wordy(text: string) {
    exists i :: 0 <= i < |text| && text[i] != ' ' && text[i] != '\t' && text[i] != '\n' && text[i] != '\r'
  }

  lemma BlankMeans(text: string)
    ensures Assign.Blank(text) <==> !Wordy(text)
  {
    if !Assign.Blank(text) {
      var c :| c in text && c !in {' ', '\t', '\n', '\r'};
      var i :| 0 <= i < |text| && text[i] == c;
    }
    assert forall i :: 0 <= i < |text| ==> text[i] in text;
  }
}
