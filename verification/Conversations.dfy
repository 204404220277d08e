/** The table of conversations, told by the history of what was saved and forgotten. */
module Conversations {
  import opened Prelude
  import opened TurnInbox

  datatype Deed =
    | Saved(key: string, id: string, workspace: string, runtimeKind: string, model: Option<string>, now: int)
    | Forgotten(key: string)

  function After(deeds: seq<Deed>): map<string, Conversation> {
    if deeds == [] then map[]
    else
      var before := After(deeds[..|deeds| - 1]);
      match deeds[|deeds| - 1]
      case Saved(key, id, workspace, kind, model, now) => SaveConversation(before, key, id, workspace, kind, model, now)
      case Forgotten(key) => before - {key}
  }

  /** The saves of one context since it was last forgotten. */
  function SavesSince(deeds: seq<Deed>, key: string): seq<Deed> {
    if deeds == [] then []
    else
      var before, last := SavesSince(deeds[..|deeds| - 1], key), deeds[|deeds| - 1];
      if last.key != key then before else if last.Saved? then before + [last] else []
  }

  /** In every history: a context has a conversation exactly if it was saved since it was
      last forgotten; it is the last one saved, and it counts all of them from the first. */
  lemma {:induction false} ConversationTells(deeds: seq<Deed>, key: string)
    ensures forall i :: 0 <= i < |SavesSince(deeds, key)| ==> SavesSince(deeds, key)[i].Saved?
    ensures key in After(deeds) <==> SavesSince(deeds, key) != []
    ensures key in After(deeds) ==>
      var saves, c := SavesSince(deeds, key), After(deeds)[key];
      var first, last := saves[0], saves[|saves| - 1];
      c == Conversation(last.id, last.workspace, last.runtimeKind, last.model, |saves|, first.now, last.now)
  {
    if deeds != [] { ConversationTells(deeds[..|deeds| - 1], key); }
  }
}
