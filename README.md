# Character chat client: the conversation store and the send flow

This project models the logic of a mobile chat client in which the user talks
to one of several preset characters (personas). The client keeps one
process-wide store. The store holds the selected character, the roster, and
one ordered list of messages per character id. On top of the store sits the
chat screen's send flow:

1. the input bar passes on only trimmed, non-empty text, and only while it is
   enabled;
2. the screen appends the user's message and a loading placeholder;
3. it raises a typing flag that disables the input bar;
4. later, a timer callback fills the placeholder with a canned reply and
   lowers the flag.

Modules, one per source file:

- `CharacterTypes` (`types.dfy`): characters, messages, roles, and the partial
  message (`Partial<Message>`) as a record of optional fields. `Merge` spreads a
  patch over a message.
- `ChatStore` (`chat_store.dfy`): the store as a class `Store` with its three
  fields. Each action is a method whose new state is a pure function of the
  old one (`Appended`, `Patched`, `Cleared`). The lemmas about those functions
  give the frame properties: other keys unchanged, length and order
  preserved, and owners consistent.
- `ChatInput` (`chat_input.dfy`): `trim` over an explicit whitespace set, the
  `canSend` guard, and the input bar's text state as the class `InputBox`.
- `ChatScreen` (`chat_screen.dfy`): the mock roster, message ids, the reply
  template, the `currentMessages` derivation, and the class `Screen`. `Screen`
  holds the store and the `isTyping` flag. Its methods are the mount effect,
  `handleSendMessage`, the reply callback, character selection, and the input
  bar wired to the send handler.

Time and timers are explicit. The four `Date.now()` readings of one send are
a `SendTimes` parameter. The 1500 ms timer is a `PendingReply` value that
`HandleSendMessage` returns. The caller later passes that value to
`DeliverReply`. `PendingReply` holds the character id, name, placeholder id and
text captured at send time.

`updateMessage` on a character with no list stores the empty list under that
key (`useChatStore.ts:44-46`). `Patched` does the same, and `PatchedMissingId`
shows that reading the key back gives the empty list.

## Model

| member | source | states |
|---|---|---|
| `CharacterTypes.Merge` | src/stores/useChatStore.ts:45 | every field the patch carries replaces the message's field; every field it leaves out keeps the message's value |
| `CharacterTypes.MergeEmpty` | src/stores/useChatStore.ts:45 | merging a patch with no fields leaves the message as it was |
| `CharacterTypes.MergeIdempotent` | src/stores/useChatStore.ts:45 | merging the same patch twice gives the same message as merging it once |
| `CharacterTypes.MergeThen` | src/stores/useChatStore.ts:45 | two merges in a row equal one merge of the combined patch, in which the later patch wins |
| `ChatStore.Lookup` | src/stores/useChatStore.ts:36 | the stored list of a character id, or the empty list when the id has no list (the default used by addMessage and getMessages) |
| `ChatStore.Appended` | src/stores/useChatStore.ts:32-37 | addMessage: the character's list becomes its old list (or the empty list) followed by the message; the key set gains the id; every other key keeps its list |
| `ChatStore.AppendToUnseen` | src/stores/useChatStore.ts:36 | appending to a character with no list gives exactly the singleton list |
| `ChatStore.AppendAtEnd` | src/stores/useChatStore.ts:36 | the list grows by one, the new message is last, and every earlier message is unchanged at its index |
| `ChatStore.AppendedKeepsOwners` | src/stores/useChatStore.ts:32-37 | appending a message owned by the character keeps every list holding only messages of its own character |
| `ChatStore.PatchIfMatch` | src/stores/useChatStore.ts:45 | a message whose id matches has the patch merged over it; any other message is returned unchanged |
| `ChatStore.PatchAll` | src/stores/useChatStore.ts:44-46 | the mapped list has the same length; each message with the id has the patch merged over it; every other message is identical at its index |
| `ChatStore.Patched` | src/stores/useChatStore.ts:40-48 | updateMessage: only the character's list is patched; an absent key becomes present with the empty list; other keys keep their lists |
| `ChatStore.PatchAllConcat` | src/stores/useChatStore.ts:44-46 | patching a concatenation is concatenating the patched parts |
| `ChatStore.PatchMissingId` | src/stores/useChatStore.ts:44-46 | a list with no message of that id is returned unchanged |
| `ChatStore.PatchedMissingId` | src/stores/useChatStore.ts:44-46 | an update with an id not in the list leaves the key present and the list read back unchanged, including the empty list for an absent key |
| `ChatStore.PatchAllIdempotent` | src/stores/useChatStore.ts:44-46 | applying the same update twice gives the same list as applying it once |
| `ChatStore.PatchedKeepsOwners` | src/stores/useChatStore.ts:40-48 | a patch that does not move a message to another character keeps lists owner-consistent |
| `ChatStore.Cleared` | src/stores/useChatStore.ts:50-56 | clearMessages: the character's key is present with the empty list; other keys keep their lists |
| `ChatStore.ClearedKeepsOwners` | src/stores/useChatStore.ts:50-56 | clearing keeps lists owner-consistent |
| `ChatStore.GetAfterClear` | src/stores/useChatStore.ts:50-58 | after clearing, reading the character's messages gives the empty list |
| `ChatStore.Store.constructor` | src/stores/useChatStore.ts:24-26 | the store starts with no current character, an empty roster and no message lists |
| `ChatStore.Store.SetCurrentCharacter` | src/stores/useChatStore.ts:28 | only the current character changes, to the given one |
| `ChatStore.Store.SetCharacters` | src/stores/useChatStore.ts:30 | only the roster changes, to the given one |
| `ChatStore.Store.AddMessage` | src/stores/useChatStore.ts:32-38 | the message map becomes `Appended` of the old map; current character and roster unchanged |
| `ChatStore.Store.UpdateMessage` | src/stores/useChatStore.ts:40-48 | the message map becomes `Patched` of the old map; current character and roster unchanged |
| `ChatStore.Store.ClearMessages` | src/stores/useChatStore.ts:50-56 | the message map becomes `Cleared` of the old map; current character and roster unchanged |
| `ChatStore.Store.GetMessages` | src/stores/useChatStore.ts:58 | the stored list for the id, or the empty list when the id has none |
| `ChatInput.TrimStart` | src/components/chat/ChatInput.tsx:16-17 | a suffix of the text; everything cut off is whitespace; a non-empty result does not start with whitespace |
| `ChatInput.TrimEnd` | src/components/chat/ChatInput.tsx:16-17 | a prefix of the text; everything cut off is whitespace; a non-empty result does not end with whitespace |
| `ChatInput.TrimBothEnds` | src/components/chat/ChatInput.tsx:16-17 | cutting both ends leaves a core with only whitespace around it, and the core is empty exactly when the text is all whitespace |
| `ChatInput.Trim` | src/components/chat/ChatInput.tsx:16-17 | the trimmed text is empty exactly when the text is all whitespace; otherwise it starts and ends with a non-whitespace character |
| `ChatInput.TrimFramed` | src/components/chat/ChatInput.tsx:16-17 | the trimmed text occurs in the text with only whitespace before and after it |
| `ChatInput.TrimUnique` | src/components/chat/ChatInput.tsx:16-17 | any split into whitespace, a core that is empty or has non-whitespace ends, and whitespace has the trimmed text as its core |
| `ChatInput.TrimIdempotent` | src/components/chat/ChatInput.tsx:16-17 | trimming trimmed text changes nothing |
| `ChatInput.CanSend` | src/components/chat/ChatInput.tsx:22 | canSend holds exactly when the bar is enabled and the text contains a non-whitespace character |
| `ChatInput.WhitespaceNeverSends` | src/components/chat/ChatInput.tsx:16 | whitespace-only text never passes the guard |
| `ChatInput.InputBox.constructor` | src/components/chat/ChatInput.tsx:13 | the text starts empty |
| `ChatInput.InputBox.SetMessage` | src/components/chat/ChatInput.tsx:36 | typing replaces the text |
| `ChatInput.InputBox.HandleSend` | src/components/chat/ChatInput.tsx:15-20 | onSend is called exactly when canSend holds; it receives the trimmed text, which is non-empty with non-whitespace ends; the text is cleared after a send and kept otherwise |
| `ChatInput.InputBox.CanSendNow` | src/components/chat/ChatInput.tsx:22 | the send button is active exactly when the bar is enabled and the current text is not all whitespace |
| `ChatScreen.MockRoster` | src/pages/ChatScreen.tsx:12-37 | the fixed roster has three characters, Emma, Marcus and Luna, with the distinct ids "1", "2" and "3" |
| `ChatScreen.Decimal` | src/pages/ChatScreen.tsx:74 | `toString` of a timestamp is a non-empty string of decimal digits |
| `ChatScreen.ParseDecimalInverse` | src/pages/ChatScreen.tsx:74 | reading the digits back gives the timestamp |
| `ChatScreen.DecimalInjective` | src/pages/ChatScreen.tsx:74 | user messages sent at different instants get different ids |
| `ChatScreen.UserIdIsNotLoadingId` | src/pages/ChatScreen.tsx:74-83 | a user-message id never equals a placeholder id, whatever the two clock readings |
| `ChatScreen.LoadingId` | src/pages/ChatScreen.tsx:83 | the placeholder id is the clock reading's digits followed by the suffix "-loading", so it ends in a non-digit |
| `ChatScreen.UserMessage` | src/pages/ChatScreen.tsx:73-79 | the user message is a `user` message with the sent text, owned by the current character, with the clock's digits as id, the clock reading as timestamp and no loading flag |
| `ChatScreen.LoadingMessage` | src/pages/ChatScreen.tsx:84-91 | the placeholder is an `assistant` message with empty content, owned by the current character, under the placeholder id, with loading set to true |
| `ChatScreen.ReplyText` | src/pages/ChatScreen.tsx:98 | the reply contains the character's name and, after it, the sent text, at fixed offsets |
| `ChatScreen.ReplyPatch` | src/pages/ChatScreen.tsx:97-100 | the reply update sets the content to the reply text and the loading flag to false, and leaves id, owner, role and timestamp alone |
| `ChatScreen.CurrentMessagesOf` | src/pages/ChatScreen.tsx:66 | empty without a current character or without a list for it; otherwise that character's stored list |
| `ChatScreen.SendThenReply` | src/pages/ChatScreen.tsx:69-102 | a send followed by its reply leaves the character's list as the old list, then the user message, then the placeholder with the reply text and loading false; other lists are unchanged (given no earlier message had the placeholder's id) |
| `ChatScreen.Screen.constructor` | src/pages/ChatScreen.tsx:44 | the typing flag starts false |
| `ChatScreen.Screen.Init` | src/pages/ChatScreen.tsx:58-63 | the roster becomes the three mock characters; an unset current character becomes the first of them, and a set one is kept; messages unchanged |
| `ChatScreen.Screen.CurrentMessages` | src/pages/ChatScreen.tsx:66 | empty without a current character; otherwise the store's messages for it |
| `ChatScreen.Screen.HandleSendMessage` | src/pages/ChatScreen.tsx:69-93 | with no current character nothing changes; otherwise the list grows by the user message and then the loading placeholder, typing is set, and the pending reply captures the character, placeholder id and text; owner consistency is kept |
| `ChatScreen.Screen.DeliverReply` | src/pages/ChatScreen.tsx:96-102 | the placeholder id is patched with the reply in the list of the character captured at send time, not the current one; typing is cleared |
| `ChatScreen.Screen.SelectCharacter` | src/pages/ChatScreen.tsx:111-113 | only the current character changes |
| `ChatScreen.Screen.Submit` | src/pages/ChatScreen.tsx:169 | input that fails the guard, including all input while typing, changes nothing; input that passes with a current character is sent trimmed, clears the bar, raises the typing flag, and appends the user message and the placeholder to that character's list, leaving every other list unchanged; input that passes with no current character clears the bar and changes nothing else |

## Left out

- Rendering: JSX, styles, colour scheme, safe areas, the list view, keyboard
  handling and the scroll-to-end calls (`ChatScreen.tsx:104-107`, `164`). They
  have no logic that can be stated.
- The character switcher modal (`CharacterSwitcher.tsx`). Its only logic calls
  `onSelectCharacter` and then `onClose`. The first is `Screen.SelectCharacter`;
  the second only hides the modal.
- The message bubble (`ChatMessage.tsx`). It only branches on `role` and
  `isLoading` for presentation.
- The API client and endpoints (`client.ts`, `chatApi.ts`, `api.ts`). They do
  network I/O through an HTTP library and are not used by the send flow.
- Delays and asynchrony. The clock is the `SendTimes` parameter. The two timers
  become an explicit later call to `Screen.DeliverReply`, or are dropped (the
  scroll timer). Nothing fixes how many replies are pending or in what order
  they arrive.
- The effect's dependency list (`ChatScreen.tsx:63`). The effect runs again
  whenever the current character changes. `Screen.Init` models one run; a
  repeat run installs the same roster and keeps the selection.
- The `length > 0` test of the mount effect is always true for the fixed
  roster, so the contract of `Screen.Init` states the outcome without it.
- Message timestamps are JavaScript numbers. The model uses integers, and ids
  use natural-number clock readings. Floating point and the exponent
  notation `toString` uses for numbers of 10^21 and above are left out.
- `Trim` uses a fixed whitespace set: the ECMAScript white-space and
  line-terminator code points. It does not follow the Unicode version of any
  particular JavaScript engine.
- The `maxLength={1000}` limit of the text field (`ChatInput.tsx:38`). The
  platform enforces it, not this code.
- Character ids are assumed not to be names inherited from the prototype of a
  plain JavaScript object, such as `constructor` or `toString`. The message
  map is a plain object, so reading such a key gives an inherited value and
  not a missing list; adding or updating a message under it would then throw.
  The model's map has no inherited keys. The fixed roster's ids "1", "2" and
  "3" are not such names.
- A patch that sets a field explicitly to `undefined`. The spread would copy
  the `undefined`; in the model an absent field never overrides.
