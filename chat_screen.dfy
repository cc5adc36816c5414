/** The chat screen: it loads the roster on mount, shows the messages of the
    selected character, and runs the send flow over the store: append the
    user's message, append a loading placeholder, raise the typing flag, and,
    as a later separate step, fill the placeholder with the reply and lower
    the flag. */
module ChatScreen {
  import opened CharacterTypes
  import opened ChatStore
  import ChatInput

  // ---- the fixed roster -------------------------------------------------------

  const MockCharacters: seq<Character> := [
    Character("1", "Emma", "친절하고 유쾌한 일상 대화 파트너", "👩",
              Some("friendly"), Some("friend"), None),
    Character("2", "Marcus", "전문적인 조언을 제공하는 멘토", "👨‍💼",
              Some("professional"), Some("professional"), None),
    Character("3", "Luna", "창의적이고 예술적인 대화를 나누는 친구", "🎨",
              Some("creative"), Some("creative"), None)
  ]

  /** The roster holds three characters with distinct ids "1", "2" and "3". */
  lemma MockRoster()
    ensures |MockCharacters| == 3
    ensures MockCharacters[0].id == "1" && MockCharacters[1].id == "2" && MockCharacters[2].id == "3"
    ensures MockCharacters[0].name == "Emma" && MockCharacters[1].name == "Marcus" && MockCharacters[2].name == "Luna"
    ensures forall i, j :: 0 <= i < j < |MockCharacters| ==> MockCharacters[i].id != MockCharacters[j].id
  {
  }

  // ---- message ids ------------------------------------------------------------

  predicate IsDigit(c: char) {
    '0' <= c <= '9'
  }

  function DigitChar(d: nat): (c: char)
    requires d < 10
    ensures IsDigit(c)
  {
    ('0' as int + d) as char
  }

  function DigitValue(c: char): (d: nat)
    requires IsDigit(c)
    ensures d < 10
  {
    c as int - '0' as int
  }

  /** The string form of a whole number of milliseconds: its decimal digits. */
  function Decimal(n: nat): (r: string)
    ensures r != []
    ensures forall i :: 0 <= i < |r| ==> IsDigit(r[i])
    decreases n
  {
    if n < 10 then [DigitChar(n)] else Decimal(n / 10) + [DigitChar(n % 10)]
  }

  /** The number a string of decimal digits denotes. */
  function ParseDecimal(s: string): nat
    requires forall i :: 0 <= i < |s| ==> IsDigit(s[i])
    decreases |s|
  {
    if s == [] then 0
    else ParseDecimal(s[..|s| - 1]) * 10 + DigitValue(s[|s| - 1])
  }

  /** Reading back the digits of `n` gives `n`. */
  lemma {:induction false} ParseDecimalInverse(n: nat)
    ensures ParseDecimal(Decimal(n)) == n
    decreases n
  {
    var s := Decimal(n);
    if n >= 10 {
      assert s[..|s| - 1] == Decimal(n / 10);
      ParseDecimalInverse(n / 10);
    }
  }

  /** Two sends at different instants give their user messages different ids. */
  lemma DecimalInjective(a: nat, b: nat)
    requires Decimal(a) == Decimal(b)
    ensures a == b
  {
    ParseDecimalInverse(a);
    ParseDecimalInverse(b);
  }

  /** The placeholder id: the clock reading's digits followed by a fixed
      suffix that no digit string has. */
  function LoadingId(t: nat): (r: string)
    ensures |r| == |Decimal(t)| + |LoadingSuffix|
    ensures r[..|Decimal(t)|] == Decimal(t) && r[|Decimal(t)|..] == LoadingSuffix
    ensures !IsDigit(r[|r| - 1])
  {
    Decimal(t) + LoadingSuffix
  }

  const LoadingSuffix := "-loading"

  /** A user-message id is never a placeholder id, whatever the two clock
      readings were. */
  lemma UserIdIsNotLoadingId(t: nat, t': nat)
    ensures Decimal(t) != LoadingId(t')
  {
    var l := LoadingId(t');
    assert l[|l| - 1] == 'g';
  }

  // ---- the send flow's values -------------------------------------------------

  /** The four readings of the clock one send makes: for the user message's id
      and timestamp, then for the placeholder's id and timestamp. */
  datatype SendTimes = SendTimes(userId: nat, userStamp: nat, loadingId: nat, loadingStamp: nat)

  /** The user's message: the sent text, owned by the character, with an id
      made of the clock's digits and no loading flag. */
  function UserMessage(c: Character, content: string, now: SendTimes): (r: Message)
    ensures r.role == User && r.content == content && r.characterId == c.id
    ensures r.id == Decimal(now.userId) && r.timestamp == now.userStamp && r.isLoading.None?
  {
    Message(Decimal(now.userId), c.id, content, User, now.userStamp, None)
  }

  /** The placeholder: an empty assistant message owned by the character,
      flagged as loading, under a placeholder id. */
  function LoadingMessage(c: Character, now: SendTimes): (r: Message)
    ensures r.role == Assistant && r.content == "" && r.characterId == c.id
    ensures r.id == LoadingId(now.loadingId) && r.timestamp == now.loadingStamp && r.isLoading == Some(true)
  {
    Message(LoadingId(now.loadingId), c.id, "", Assistant, now.loadingStamp, Some(true))
  }

  /** The canned reply, naming the character and echoing what was sent. */
  function ReplyText(name: string, content: string): (r: string)
    ensures |r| == |ReplyOpening| + |name| + |ReplyMiddle| + |content| + |ReplyClosing|
    ensures r[|ReplyOpening| .. |ReplyOpening| + |name|] == name
    ensures r[|ReplyOpening| + |name| + |ReplyMiddle| .. |ReplyOpening| + |name| + |ReplyMiddle| + |content|] == content
  {
    ReplyOpening + name + ReplyMiddle + content + ReplyClosing
  }

  const ReplyOpening := "안녕하세요! "
  const ReplyMiddle := "입니다. \""
  const ReplyClosing := "\"라고 말씀하셨군요. 어떻게 도와드릴까요?"

  /** What the delayed reply callback captured when the message was sent. */
  datatype PendingReply = PendingReply(characterId: string, name: string, loadingId: string, content: string)

  /** The update the reply applies: the reply text, loading finished. */
  function ReplyPatch(name: string, content: string): (p: MessagePatch)
    ensures p.content == Some(ReplyText(name, content)) && p.isLoading == Some(false)
    ensures p.id.None? && p.characterId.None? && p.role.None? && p.timestamp.None?
  {
    MessagePatch(None, None, Some(ReplyText(name, content)), None, None, Some(false))
  }

  /** `currentMessages`: empty without a current character or without a list
      for it, and that list otherwise. */
  function CurrentMessagesOf(current: Option<Character>, m: MessageMap): (r: seq<Message>)
    ensures current.None? ==> r == []
    ensures current.Some? && current.value.id !in m ==> r == []
    ensures current.Some? && current.value.id in m ==> r == m[current.value.id]
  {
    if current.Some? then Lookup(m, current.value.id) else []
  }

  /** A whole send followed by its reply: the character's list ends with the
      user's message and the filled-in placeholder, and nothing before them
      changes, provided no earlier message carried the placeholder's id. */
  lemma SendThenReply(m: MessageMap, c: Character, content: string, now: SendTimes)
    requires forall i :: 0 <= i < |Lookup(m, c.id)| ==> Lookup(m, c.id)[i].id != LoadingId(now.loadingId)
    ensures
      var sent := Appended(Appended(m, c.id, UserMessage(c, content, now)), c.id, LoadingMessage(c, now));
      var replied := Patched(sent, c.id, LoadingId(now.loadingId), ReplyPatch(c.name, content));
      && Lookup(replied, c.id) == Lookup(m, c.id) + [UserMessage(c, content, now),
           Message(LoadingId(now.loadingId), c.id, ReplyText(c.name, content), Assistant, now.loadingStamp, Some(false))]
      && replied.Keys == m.Keys + {c.id}
      && forall k :: k in m && k != c.id ==> replied[k] == m[k]
  {
    var old_ := Lookup(m, c.id);
    var u, l := UserMessage(c, content, now), LoadingMessage(c, now);
    var mid, p := LoadingId(now.loadingId), ReplyPatch(c.name, content);
    var sent := Appended(Appended(m, c.id, u), c.id, l);
    assert Lookup(sent, c.id) == old_ + [u, l];
    PatchAllConcat(old_, [u, l], mid, p);
    PatchMissingId(old_, mid, p);
    UserIdIsNotLoadingId(now.userId, now.loadingId);
    assert PatchAll([u, l], mid, p) == [u, Merge(l, p)];
  }

  // ---- the screen -------------------------------------------------------------

  class Screen {
    /** The process-wide store the screen reads and mutates. */
    const store: Store
    /** Set while a reply is pending; it disables the input bar. */
    var isTyping: bool

    constructor (s: Store)
      ensures store == s && !isTyping
    {
      store := s;
      isTyping := false;
    }

    /** The mount effect: install the roster and, if nothing is selected yet,
        select its first entry. */
    method Init()
      modifies store
      ensures store.characters == MockCharacters
      ensures store.currentCharacter ==
                if old(store.currentCharacter).None? then Some(MockCharacters[0])
                else old(store.currentCharacter)
      ensures store.messagesByCharacter == old(store.messagesByCharacter)
    {
      var current := store.currentCharacter;
      store.SetCharacters(MockCharacters);
      if current.None? && |MockCharacters| > 0 {
        store.SetCurrentCharacter(MockCharacters[0]);
      }
    }

    function CurrentMessages(): (r: seq<Message>)
      reads this, store
      ensures store.currentCharacter.None? ==> r == []
      ensures store.currentCharacter.Some? ==> r == store.GetMessages(store.currentCharacter.value.id)
    {
      CurrentMessagesOf(store.currentCharacter, store.messagesByCharacter)
    }

    /** `handleSendMessage`: with no current character nothing happens;
        otherwise two messages are appended to its list, the typing flag is
        raised, and the reply still to come is returned. */
    method HandleSendMessage(content: string, now: SendTimes) returns (pending: Option<PendingReply>)
      modifies this, store
      ensures old(store.currentCharacter).None? ==>
                pending.None? && isTyping == old(isTyping)
                && store.messagesByCharacter == old(store.messagesByCharacter)
      ensures old(store.currentCharacter).Some? ==>
                var c := old(store.currentCharacter).value;
                && pending == Some(PendingReply(c.id, c.name, LoadingId(now.loadingId), content))
                && isTyping
                && store.messagesByCharacter ==
                     Appended(Appended(old(store.messagesByCharacter), c.id, UserMessage(c, content, now)),
                              c.id, LoadingMessage(c, now))
                && store.GetMessages(c.id) ==
                     old(store.GetMessages(c.id)) + [UserMessage(c, content, now), LoadingMessage(c, now)]
      ensures store.currentCharacter == old(store.currentCharacter)
      ensures store.characters == old(store.characters)
      ensures old(OwnersMatch(store.messagesByCharacter)) ==> OwnersMatch(store.messagesByCharacter)
    {
      if store.currentCharacter.None? {
        return None;
      }
      var c := store.currentCharacter.value;
      ghost var before := store.messagesByCharacter;
      store.AddMessage(c.id, UserMessage(c, content, now));
      store.AddMessage(c.id, LoadingMessage(c, now));
      isTyping := true;
      if OwnersMatch(before) {
        AppendedKeepsOwners(before, c.id, UserMessage(c, content, now));
        AppendedKeepsOwners(Appended(before, c.id, UserMessage(c, content, now)), c.id, LoadingMessage(c, now));
      }
      pending := Some(PendingReply(c.id, c.name, LoadingId(now.loadingId), content));
    }

    /** The timer callback: fill in the placeholder in the list of the
        character captured at send time, whatever is selected now, and lower
        the typing flag. */
    method DeliverReply(p: PendingReply)
      modifies this, store
      ensures store.messagesByCharacter ==
                Patched(old(store.messagesByCharacter), p.characterId, p.loadingId, ReplyPatch(p.name, p.content))
      ensures !isTyping
      ensures store.currentCharacter == old(store.currentCharacter)
      ensures store.characters == old(store.characters)
      ensures old(OwnersMatch(store.messagesByCharacter)) ==> OwnersMatch(store.messagesByCharacter)
    {
      ghost var before := store.messagesByCharacter;
      store.UpdateMessage(p.characterId, p.loadingId, ReplyPatch(p.name, p.content));
      isTyping := false;
      if OwnersMatch(before) {
        PatchedKeepsOwners(before, p.characterId, p.loadingId, ReplyPatch(p.name, p.content));
      }
    }

    /** `handleSelectCharacter` */
    method SelectCharacter(c: Character)
      modifies store
      ensures store.currentCharacter == Some(c)
      ensures store.characters == old(store.characters)
      ensures store.messagesByCharacter == old(store.messagesByCharacter)
    {
      store.SetCurrentCharacter(c);
    }

    /** The input bar wired to the screen: `onSend` is `handleSendMessage`
        and `disabled` is the typing flag. Text that fails the bar's guard,
        whitespace-only text included, and any text while a reply is pending,
        leaves the store, the flag and the typed text as they were. */
    method Submit(input: ChatInput.InputBox, now: SendTimes) returns (pending: Option<PendingReply>)
      modifies this, store, input
      ensures !ChatInput.CanSend(old(input.message), old(isTyping)) ==>
                pending.None? && input.message == old(input.message) && isTyping == old(isTyping)
                && store.messagesByCharacter == old(store.messagesByCharacter)
      ensures ChatInput.CanSend(old(input.message), old(isTyping)) && old(store.currentCharacter).Some? ==>
                var c := old(store.currentCharacter).value;
                var text := ChatInput.Trim(old(input.message));
                && input.message == ""
                && isTyping
                && pending == Some(PendingReply(c.id, c.name, LoadingId(now.loadingId), text))
                && store.messagesByCharacter ==
                     Appended(Appended(old(store.messagesByCharacter), c.id, UserMessage(c, text, now)),
                              c.id, LoadingMessage(c, now))
                && store.GetMessages(c.id) ==
                     old(store.GetMessages(c.id)) + [UserMessage(c, text, now), LoadingMessage(c, now)]
      ensures ChatInput.CanSend(old(input.message), old(isTyping)) && old(store.currentCharacter).None? ==>
                input.message == "" && pending.None? && isTyping == old(isTyping)
                && store.messagesByCharacter == old(store.messagesByCharacter)
      ensures store.currentCharacter == old(store.currentCharacter)
      ensures store.characters == old(store.characters)
    {
      var sent := input.HandleSend(isTyping);
      if sent.Some? {
        pending := HandleSendMessage(sent.value, now);
      } else {
        pending := None;
      }
    }
  }
}
