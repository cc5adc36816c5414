/** The conversation store: the selected character, the roster, and one
    ordered list of messages per character id. Every action replaces a field
    by a new value computed from the old one; the new values are given by the
    pure functions below, and the class methods are proved to install them. */
module ChatStore {
  import opened CharacterTypes

  /** Messages per character id, in display order. */
  type MessageMap = map<string, seq<Message>>

  /** The stored list of `cid`, or the empty list for an absent key. */
  function Lookup(m: MessageMap, cid: string): (r: seq<Message>)
    ensures cid in m ==> r == m[cid]
    ensures cid !in m ==> r == []
  {
    if cid in m then m[cid] else []
  }

  /** Every list holds only messages owned by the character it is filed under. */
  ghost predicate OwnersMatch(m: MessageMap) {
    forall k, i :: k in m && 0 <= i < |m[k]| ==> m[k][i].characterId == k
  }

  // ---- addMessage -----------------------------------------------------------

  /** The map after appending `msg` to the list of `cid`. */
  function Appended(m: MessageMap, cid: string, msg: Message): (r: MessageMap)
    ensures cid in r && r[cid] == Lookup(m, cid) + [msg]
    ensures r.Keys == m.Keys + {cid}
    ensures forall k :: k in m && k != cid ==> r[k] == m[k]
  {
    m[cid := Lookup(m, cid) + [msg]]
  }

  /** Appending to a character that has no list yet gives the singleton list. */
  lemma AppendToUnseen(m: MessageMap, cid: string, msg: Message)
    requires cid !in m
    ensures Appended(m, cid, msg)[cid] == [msg]
  {
  }

  /** Appending adds one message at the end and keeps every earlier one in place. */
  lemma AppendAtEnd(m: MessageMap, cid: string, msg: Message)
    ensures |Lookup(Appended(m, cid, msg), cid)| == |Lookup(m, cid)| + 1
    ensures Lookup(Appended(m, cid, msg), cid)[|Lookup(m, cid)|] == msg
    ensures forall i :: 0 <= i < |Lookup(m, cid)| ==>
              Lookup(Appended(m, cid, msg), cid)[i] == Lookup(m, cid)[i]
  {
  }

  lemma AppendedKeepsOwners(m: MessageMap, cid: string, msg: Message)
    requires OwnersMatch(m) && msg.characterId == cid
    ensures OwnersMatch(Appended(m, cid, msg))
  {
  }

  // ---- updateMessage --------------------------------------------------------

  /** The message with the patch merged over it when its id matches, and
      unchanged otherwise. */
  function PatchIfMatch(msg: Message, mid: string, p: MessagePatch): (r: Message)
    ensures msg.id == mid ==> r == Merge(msg, p)
    ensures msg.id != mid ==> r == msg
  {
    if msg.id == mid then Merge(msg, p) else msg
  }

  /** The list mapped through `PatchIfMatch`: same length, same order, each
      message with the id patched and every other one as it was. */
  function PatchAll(msgs: seq<Message>, mid: string, p: MessagePatch): (r: seq<Message>)
    ensures |r| == |msgs|
    ensures forall i :: 0 <= i < |msgs| && msgs[i].id == mid ==> r[i] == Merge(msgs[i], p)
    ensures forall i :: 0 <= i < |msgs| && msgs[i].id != mid ==> r[i] == msgs[i]
    decreases |msgs|
  {
    if msgs == [] then [] else [PatchIfMatch(msgs[0], mid, p)] + PatchAll(msgs[1..], mid, p)
  }

  /** The map after patching every message with id `mid` in the list of `cid`;
      an absent key becomes present with the empty list. */
  function Patched(m: MessageMap, cid: string, mid: string, p: MessagePatch): (r: MessageMap)
    ensures cid in r && r[cid] == PatchAll(Lookup(m, cid), mid, p)
    ensures cid !in m ==> r[cid] == []
    ensures r.Keys == m.Keys + {cid}
    ensures forall k :: k in m && k != cid ==> r[k] == m[k]
  {
    m[cid := PatchAll(Lookup(m, cid), mid, p)]
  }

  /** Patching distributes over concatenation. */
  lemma {:induction false} PatchAllConcat(a: seq<Message>, b: seq<Message>, mid: string, p: MessagePatch)
    ensures PatchAll(a + b, mid, p) == PatchAll(a, mid, p) + PatchAll(b, mid, p)
    decreases |a|
  {
    if a != [] {
      assert (a + b)[1..] == a[1..] + b;
      PatchAllConcat(a[1..], b, mid, p);
    }
  }

  /** A list without the id is left exactly as it was. */
  lemma {:induction false} PatchMissingId(msgs: seq<Message>, mid: string, p: MessagePatch)
    requires forall i :: 0 <= i < |msgs| ==> msgs[i].id != mid
    ensures PatchAll(msgs, mid, p) == msgs
    decreases |msgs|
  {
    if msgs != [] {
      PatchMissingId(msgs[1..], mid, p);
    }
  }

  /** Updating with an id that is not in the list keeps the list's contents;
      the key is then present, and reading it gives the same list as before. */
  lemma PatchedMissingId(m: MessageMap, cid: string, mid: string, p: MessagePatch)
    requires forall i :: 0 <= i < |Lookup(m, cid)| ==> Lookup(m, cid)[i].id != mid
    ensures cid in Patched(m, cid, mid, p)
    ensures Lookup(Patched(m, cid, mid, p), cid) == Lookup(m, cid)
  {
    PatchMissingId(Lookup(m, cid), mid, p);
  }

  /** Applying the same update twice is applying it once. */
  lemma {:induction false} PatchAllIdempotent(msgs: seq<Message>, mid: string, p: MessagePatch)
    ensures PatchAll(PatchAll(msgs, mid, p), mid, p) == PatchAll(msgs, mid, p)
    decreases |msgs|
  {
    if msgs != [] {
      MergeIdempotent(msgs[0], p);
      PatchAllIdempotent(msgs[1..], mid, p);
      assert PatchAll(msgs, mid, p)[1..] == PatchAll(msgs[1..], mid, p);
    }
  }

  lemma PatchedKeepsOwners(m: MessageMap, cid: string, mid: string, p: MessagePatch)
    requires OwnersMatch(m)
    requires p.characterId.None? || p.characterId == Some(cid)
    ensures OwnersMatch(Patched(m, cid, mid, p))
  {
  }

  // ---- clearMessages --------------------------------------------------------

  /** The map after setting the list of `cid` to the empty list. */
  function Cleared(m: MessageMap, cid: string): (r: MessageMap)
    ensures cid in r && r[cid] == []
    ensures r.Keys == m.Keys + {cid}
    ensures forall k :: k in m && k != cid ==> r[k] == m[k]
  {
    m[cid := []]
  }

  lemma ClearedKeepsOwners(m: MessageMap, cid: string)
    requires OwnersMatch(m)
    ensures OwnersMatch(Cleared(m, cid))
  {
  }

  // ---- the store object -----------------------------------------------------

  class Store {
    var currentCharacter: Option<Character>
    var characters: seq<Character>
    var messagesByCharacter: MessageMap

    /** The initial state: nothing selected, no roster, no messages. */
    constructor ()
      ensures currentCharacter == None && characters == [] && messagesByCharacter == map[]
    {
      currentCharacter := None;
      characters := [];
      messagesByCharacter := map[];
    }

    method SetCurrentCharacter(c: Character)
      modifies this
      ensures currentCharacter == Some(c)
      ensures characters == old(characters)
      ensures messagesByCharacter == old(messagesByCharacter)
    {
      currentCharacter := Some(c);
    }

    method SetCharacters(cs: seq<Character>)
      modifies this
      ensures characters == cs
      ensures currentCharacter == old(currentCharacter)
      ensures messagesByCharacter == old(messagesByCharacter)
    {
      characters := cs;
    }

    method AddMessage(cid: string, msg: Message)
      modifies this
      ensures messagesByCharacter == Appended(old(messagesByCharacter), cid, msg)
      ensures currentCharacter == old(currentCharacter)
      ensures characters == old(characters)
    {
      messagesByCharacter := messagesByCharacter[cid := Lookup(messagesByCharacter, cid) + [msg]];
    }

    method UpdateMessage(cid: string, mid: string, updates: MessagePatch)
      modifies this
      ensures messagesByCharacter == Patched(old(messagesByCharacter), cid, mid, updates)
      ensures currentCharacter == old(currentCharacter)
      ensures characters == old(characters)
    {
      var patched := PatchAll(Lookup(messagesByCharacter, cid), mid, updates);
      messagesByCharacter := messagesByCharacter[cid := patched];
    }

    method ClearMessages(cid: string)
      modifies this
      ensures messagesByCharacter == Cleared(old(messagesByCharacter), cid)
      ensures currentCharacter == old(currentCharacter)
      ensures characters == old(characters)
    {
      messagesByCharacter := messagesByCharacter[cid := []];
    }

    /** The stored list of `cid`, or the empty list when there is none. */
    function GetMessages(cid: string): (r: seq<Message>)
      reads this
      ensures cid in messagesByCharacter ==> r == messagesByCharacter[cid]
      ensures cid !in messagesByCharacter ==> r == []
    {
      Lookup(messagesByCharacter, cid)
    }
  }

  /** After clearing, reading the character's list gives the empty list. */
  lemma GetAfterClear(m: MessageMap, cid: string)
    ensures Lookup(Cleared(m, cid), cid) == []
  {
  }
}
