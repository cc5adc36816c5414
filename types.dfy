/** The data model of the chat client: characters (personas), messages, and
    the partial message used by the store's update action. */
module CharacterTypes {

  datatype Option<T> = None | Some(value: T)

  /** A persona the user can converse with. The three optional tags are absent
      or present, as TypeScript's `?` fields. */
  datatype Character = Character(
    id: string,
    name: string,
    description: string,
    avatar: string,
    personality: Option<string>,
    category: Option<string>,
    systemPrompt: Option<string>)

  /** Who wrote a message. */
  datatype Role = User | Assistant

  /** One turn of a conversation. `isLoading` marks the placeholder bubble
      shown while a reply is pending; it may be absent altogether. */
  datatype Message = Message(
    id: string,
    characterId: string,
    content: string,
    role: Role,
    timestamp: int,
    isLoading: Option<bool>)

  /** A partial message: every field may be left out; a field that is present
      overrides the message's own field when merged. */
  datatype MessagePatch = MessagePatch(
    id: Option<string>,
    characterId: Option<string>,
    content: Option<string>,
    role: Option<Role>,
    timestamp: Option<int>,
    isLoading: Option<bool>)

  /** The patch that leaves out every field. */
  const EmptyPatch := MessagePatch(None, None, None, None, None, None)

  function Override<T>(own: T, o: Option<T>): T {
    if o.Some? then o.value else own
  }

  /** The patch spread over the message: the fields present in `p` win, the
      others are `m`'s. */
  function Merge(m: Message, p: MessagePatch): (r: Message)
    ensures p.id.None? ==> r.id == m.id
    ensures p.id.Some? ==> r.id == p.id.value
    ensures p.characterId.None? ==> r.characterId == m.characterId
    ensures p.characterId.Some? ==> r.characterId == p.characterId.value
    ensures p.content.None? ==> r.content == m.content
    ensures p.content.Some? ==> r.content == p.content.value
    ensures p.role.None? ==> r.role == m.role
    ensures p.role.Some? ==> r.role == p.role.value
    ensures p.timestamp.None? ==> r.timestamp == m.timestamp
    ensures p.timestamp.Some? ==> r.timestamp == p.timestamp.value
    ensures p.isLoading.None? ==> r.isLoading == m.isLoading
    ensures p.isLoading.Some? ==> r.isLoading == p.isLoading
  {
    Message(
      Override(m.id, p.id),
      Override(m.characterId, p.characterId),
      Override(m.content, p.content),
      Override(m.role, p.role),
      Override(m.timestamp, p.timestamp),
      if p.isLoading.Some? then p.isLoading else m.isLoading)
  }

  /** Two patches applied one after the other, the later one winning. */
  function Then(p: MessagePatch, q: MessagePatch): MessagePatch {
    MessagePatch(
      if q.id.Some? then q.id else p.id,
      if q.characterId.Some? then q.characterId else p.characterId,
      if q.content.Some? then q.content else p.content,
      if q.role.Some? then q.role else p.role,
      if q.timestamp.Some? then q.timestamp else p.timestamp,
      if q.isLoading.Some? then q.isLoading else p.isLoading)
  }

  /** Merging the empty patch changes nothing. */
  lemma MergeEmpty(m: Message)
    ensures Merge(m, EmptyPatch) == m
  {
  }

  /** Merging the same patch twice is merging it once. */
  lemma MergeIdempotent(m: Message, p: MessagePatch)
    ensures Merge(Merge(m, p), p) == Merge(m, p)
  {
  }

  /** Two successive merges are one merge of the combined patch. */
  lemma MergeThen(m: Message, p: MessagePatch, q: MessagePatch)
    ensures Merge(Merge(m, p), q) == Merge(m, Then(p, q))
  {
  }
}
