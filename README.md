# Chat page state, modelled in Dafny

This project models the behaviour of a chat front end: a page that holds
a list of conversations in memory, a sidebar that lists and searches them,
a chat view that shows one conversation and simulates the assistant's
replies, and a composer that sends what the user types.

- `conversations.dfy` (module `Conversations`): the conversation store of
  the page. There are three state cells: the chat list, the active chat id
  and the messages on display. The handlers are new, select, delete,
  rename, regenerate and send. Each handler is a pure transition on a
  `StoreState` value, and the store's properties are proved about these
  transitions. The class `ChatStore` holds the three cells and updates them
  step by step. Each of its methods promises the new state that the
  matching transition gives. The store's invariant is `Synced`: when the
  active id belongs to a chat, the messages on display are that chat's
  messages. Every handler of the model preserves it. The page itself can
  break it: a simulated reply that arrives after the user has switched
  chats is shown in the new chat but stored in the old one (see
  "## Left out"), a case the model's atomic steps do not produce.
- `interface.dfy` (module `Interface`): the chat view. It holds the
  clamped reply delay, the canned replies, the plain-text export, the
  composer's placeholder, and the class `ChatInterface`. That class forwards
  sends to the store and raises `isTyping`, which disables the composer,
  until the scheduled reply is delivered.
- `sidebar.dfy` (module `Sidebar`): the case-insensitive search filter,
  the rows with their highlight, and what a click on a row selects.
- `input.dfy` (module `Input`): the composer's buffer, its send guard, the
  Enter rule, the send button's enablement and the voice toggle.
- `text.dfy` and `lists.dfy`: the JavaScript built-ins the components
  call (`String.prototype.trim`, `toLowerCase` and `includes`, and
  `Array.prototype.join`) and a subsequence relation used to state that
  filtering keeps order.

Nondeterminism is passed in as parameters. `Date.now()` ids and the local
time strings are arguments. `Math.random()` choices are arguments too: the
role of each sent message and the index into each canned pool. A
`setTimeout` callback is an explicit step, `ChatInterface.DeliverResponse`.
`HandleSendMessage` returns the delay that the callback would wait.

The model follows the code as written:
- Rename takes the title as given. It does not trim it and does not reject
  an empty title.
- Selecting an id that no chat has still makes that id active, and then no
  messages are shown.
- A sent message gets a random role, `user` or `assistant`. This applies
  to the simulated reply too. So the "user message" of a send may be
  labelled `assistant` and the reply may be labelled `user`.
- A new title is the first 30 characters of the first message followed by
  `"..."`. The ellipsis is added even when the message is shorter.
- Ids come from the clock and can collide. The model does not assume they
  are unique. Lookups use the first chat with a given id, as `find` does.
  Map updates touch every chat with that id. `Sidebar.ClickSelects`
  states what a click shows with and without distinct ids.

The sidebar component does not declare the delete and rename callbacks
that the page passes to it, and the message component does not declare the
regenerate callback that the chat view passes to it
(src/components/ChatMessage.tsx:6-13 against
src/components/ChatInterface.tsx:211). So in the shipped page those three
handlers are not reachable from the interface. The model still covers all
three.

## Model

| member | source | states |
|---|---|---|
| `Conversations.ChatIndex` | src/pages/Index.tsx:68 | the position of the first chat with the id, or -1 exactly when no chat has it |
| `Conversations.FindChat` | src/pages/Index.tsx:68 | `find` by id: absent exactly when no chat has the id; otherwise the chat at the first position whose id matches |
| `Conversations.MessageIndex` | src/pages/Index.tsx:94 | `findIndex` by id: the first message with the id, or -1 exactly when none has it |
| `Conversations.WithoutChat` | src/pages/Index.tsx:73 | the filter leaves no chat with the id and never lengthens the list |
| `Conversations.WithoutChatMembers` | src/pages/Index.tsx:73 | the filter keeps exactly the chats whose id differs, as a subsequence of the list |
| `Conversations.WithoutChatConcat` | src/pages/Index.tsx:73 | removal distributes over concatenation, so the remaining chats keep their order |
| `Conversations.WithoutAbsentChat` | src/pages/Index.tsx:73 | deleting an id no chat has leaves the list unchanged |
| `Conversations.FindChatWithout` | src/pages/Index.tsx:72-84 | deleting one id does not change which chat another id finds |
| `Conversations.Renamed` | src/pages/Index.tsx:86-90 | rename changes only the titles of chats with the id, to the title as given; ids, timestamps and messages of every chat are unchanged |
| `Conversations.WithMessages` | src/pages/Index.tsx:115-119 | every chat with the active id gets the new message list and nothing else changes; with no active chat no chat changes |
| `Conversations.TitleFor` | src/pages/Index.tsx:139 | the title is the first min(30, length) characters of the content followed by "..." |
| `Conversations.SentTo` | src/pages/Index.tsx:136-141 | the message is appended, the timestamp becomes "Just now", and the title is derived from the content only when the chat had no messages |
| `Conversations.WithSent` | src/pages/Index.tsx:134-143 | chats with the active id receive the message as `SentTo` says, and the other chats are unchanged |
| `Conversations.Regenerated` | src/pages/Index.tsx:104-111 | the regenerated message keeps its id, role and place and takes the new content and time; no other message changes |
| `Conversations.InitialState` | src/pages/Index.tsx:48-51 | the page starts with the seeded chats, chat "1" active and chat "1"'s messages on display |
| `Conversations.NewChat` | src/pages/Index.tsx:53-64 | the new empty chat is prepended, the list grows by one and the old chats follow unchanged in order; the new chat is active and no messages are shown |
| `Conversations.Select` | src/pages/Index.tsx:66-70 | the id becomes active even when unknown; the messages shown are the first matching chat's, or none |
| `Conversations.Delete` | src/pages/Index.tsx:72-84 | the chats are the list filtered by the id, so exactly the chats without the id remain, in order and with their multiplicity; a deleted active chat hands over to the first remaining chat and its messages, or to no chat and no messages; otherwise the active chat and the messages shown are unchanged |
| `Conversations.Rename` | src/pages/Index.tsx:86-90 | only the chat list changes, as `Renamed` says |
| `Conversations.Regenerate` | src/pages/Index.tsx:92-121 | an unknown message id changes nothing; otherwise only the matching message is regenerated, and the same list is written to the display and to the active chat |
| `Conversations.Send` | src/pages/Index.tsx:123-144 | exactly one message with the given content is appended to the display; every chat with the active id receives it as `SentTo` says and the others are unchanged; the active chat stays; with no active chat, or an unknown one, no chat changes |
| `Conversations.Synced` | src/pages/Index.tsx:66-70 | display and active chat agree: when a chat has the active id, the messages shown are those of the first such chat |
| `Conversations.InitialSynced` | src/pages/Index.tsx:48-51 | the initial messages shown are the initially active chat's |
| `Conversations.NewChatSynced` | src/pages/Index.tsx:53-64 | a new chat leaves display and active chat in agreement |
| `Conversations.SelectSynced` | src/pages/Index.tsx:66-70 | selecting leaves display and active chat in agreement |
| `Conversations.DeleteSynced` | src/pages/Index.tsx:72-84 | deleting preserves the agreement of display and active chat |
| `Conversations.RenameSynced` | src/pages/Index.tsx:86-90 | renaming preserves the agreement of display and active chat |
| `Conversations.RegenerateSynced` | src/pages/Index.tsx:110-119 | regenerating writes the same list to both, so the agreement is preserved |
| `Conversations.SendSynced` | src/pages/Index.tsx:131-143 | sending appends the same message to both, so the agreement is preserved |
| `Conversations.ChatStore.constructor` | src/pages/Index.tsx:20-51 | the page starts with the three seeded chats, chat "1" active and its message shown |
| `Conversations.ChatStore.HandleNewChat` | src/pages/Index.tsx:53-64 | the three cells end as `NewChat` gives, and display and active chat agree |
| `Conversations.ChatStore.HandleSelectChat` | src/pages/Index.tsx:66-70 | the three cells end as `Select` gives, and display and active chat agree |
| `Conversations.ChatStore.HandleDeleteChat` | src/pages/Index.tsx:72-84 | the three cells end as `Delete` gives, and the agreement is preserved |
| `Conversations.ChatStore.HandleRenameChat` | src/pages/Index.tsx:86-90 | the three cells end as `Rename` gives, and the agreement is preserved |
| `Conversations.ChatStore.HandleRegenerateMessage` | src/pages/Index.tsx:92-121 | the three cells end as `Regenerate` gives with the picked pool text, and the agreement is preserved |
| `Conversations.ChatStore.HandleSendMessage` | src/pages/Index.tsx:123-144 | the three cells end as `Send` gives, and the agreement is preserved |
| `Interface.ResponseDelay` | src/components/ChatInterface.tsx:62 | the delay is the smaller of length*50+1000 and 3000, so it lies in [1000, 3000] |
| `Interface.ResponseDelayMonotone` | src/components/ChatInterface.tsx:62 | the delay never decreases as the message grows |
| `Interface.ResponseDelaySaturates` | src/components/ChatInterface.tsx:62 | the delay is 3000 exactly from 40 characters on, and linear below |
| `Interface.ExportLines` | src/components/ChatInterface.tsx:83 | one `role: content` line per message, in message order |
| `Interface.ExportText` | src/components/ChatInterface.tsx:83 | the export is empty exactly when there are no messages, is the one line of a single message, and begins with the first message's line |
| `Interface.ExportAppend` | src/components/ChatInterface.tsx:83 | one more message adds its line after a blank-line separator, or alone when it is the first |
| `Interface.ExportConcat` | src/components/ChatInterface.tsx:83 | the export of two parts is their exports joined by one separator |
| `Interface.Placeholder` | src/components/ChatInterface.tsx:265 | "Ask anything..." exactly when there are no messages, "Type your message..." exactly otherwise |
| `Interface.ChatInterface.constructor` | src/components/ChatInterface.tsx:30 | the view starts idle with no reply scheduled |
| `Interface.ChatInterface.HandleSendMessage` | src/components/ChatInterface.tsx:57-62 | the text goes to the store as `Send`; the view awaits a reply and the composer is disabled; one reply is scheduled after the clamped delay |
| `Interface.ChatInterface.DeliverResponse` | src/components/ChatInterface.tsx:63-75 | the picked canned reply goes to the store as `Send`; the view stops awaiting and the composer is enabled |
| `Interface.ComposerSend` | src/components/ChatInterface.tsx:262-264 | the composer is disabled while a reply is awaited: then, or with a blank buffer, nothing is sent and nothing changes; otherwise the trimmed text goes to the store as `Send`, the buffer is cleared, the view awaits one more reply and the delay is returned |
| `Interface.SendAndReply` | src/components/ChatInterface.tsx:57-76 | one send from an idle view appends exactly the user's text and then one canned reply to the display, and ends idle |
| `Sidebar.FilteredChats` | src/components/ChatSidebar.tsx:35-37 | every chat shown matches the search text, and the filter never lengthens the list |
| `Sidebar.FilteredMembers` | src/components/ChatSidebar.tsx:35-37 | a chat is shown exactly when its lower-cased title includes the lower-cased query; the shown chats are a subsequence of the list |
| `Sidebar.EmptyQueryShowsAll` | src/components/ChatSidebar.tsx:35-37 | an empty search shows the whole list |
| `Sidebar.FilteredConcat` | src/components/ChatSidebar.tsx:35-37 | filtering distributes over concatenation, so the shown chats keep the list's order |
| `Sidebar.RowFor` | src/components/ChatSidebar.tsx:89-95 | a row carries its chat's id, title and timestamp, and is highlighted exactly when that id is the active one |
| `Sidebar.Rows` | src/components/ChatSidebar.tsx:88-99 | one row per shown chat, in order |
| `Sidebar.ClickSelects` | src/components/ChatSidebar.tsx:92 | clicking a row makes its chat's id active and highlights that row; the first chat with the id is shown, which is the clicked chat when ids are distinct |
| `Text.Trim` | src/components/ChatInput.tsx:23-24 | the trimmed text is empty exactly when the text is all whitespace, and otherwise starts and ends with a non-whitespace character |
| `Text.TrimIsSlice` | src/components/ChatInput.tsx:23-24 | the trimmed text is the slice of the text left after cutting only whitespace from both ends |
| `Text.Lower` | src/components/ChatSidebar.tsx:36 | every ASCII upper-case letter is mapped to lower case and every other character is kept |
| `Text.Includes` | src/components/ChatSidebar.tsx:36 | the empty needle is in every text, and a needle found is no longer than the text |
| `Text.IncludesIff` | src/components/ChatSidebar.tsx:36 | `includes` holds exactly when the needle occurs at some position |
| `Text.Join` | src/components/ChatInterface.tsx:83 | no items give the empty string, one item gives itself, and the result starts with the first item |
| `Text.JoinConcat` | src/components/ChatInterface.tsx:83 | joining a list cut in two is joining the parts with one separator between them |
| `Input.ChatInput.constructor` | src/components/ChatInput.tsx:18-19 | the composer starts with an empty buffer and not recording |
| `Input.ChatInput.CanSend` | src/components/ChatInput.tsx:23 | the send guard holds exactly when the composer is enabled and the buffer has a non-whitespace character |
| `Input.ChatInput.SendButtonDisabled` | src/components/ChatInput.tsx:86 | the send button is disabled exactly when the send guard fails: the buffer is all whitespace or the composer is disabled |
| `Input.ChatInput.HandleChange` | src/components/ChatInput.tsx:71 | the buffer becomes the typed text |
| `Input.ChatInput.HandleSend` | src/components/ChatInput.tsx:22-30 | with a non-blank buffer and an enabled composer the trimmed buffer is sent and the buffer cleared; otherwise nothing is sent and the buffer is kept |
| `Input.ChatInput.HandleKeyDown` | src/components/ChatInput.tsx:32-37 | Enter without Shift prevents the default and takes the send path; Shift+Enter and other keys send nothing and keep the buffer |
| `Input.ChatInput.HandleVoiceToggle` | src/components/ChatInput.tsx:39-42 | the recording flag flips |
| `Input.ToggleTwice` | src/components/ChatInput.tsx:39-42 | toggling twice restores the recording flag |

## Left out

- `src/components/ChatMessage.tsx` is not part of this model. It maps a role to an avatar and a label and shows action buttons. It holds no state that the page depends on.
- Rendering, styling, tooltips and animations are left out. So are the scroll listener, auto-scroll and the textarea auto-resize. None of them changes the model's state.
- Export I/O is left out: the Blob, the object URL, the anchor download and the file name with its date. Only the exported text is modelled.
- Timers are not modelled as time. A scheduled reply is the explicit step `DeliverResponse`. Its delay is returned, not waited for.
- `Math.random`, `Date.now` and `toLocaleTimeString` are left out as behaviour. Their results are parameters of the handlers.
- React's batching and stale closures are left out. Each handler is one atomic transition on the current state. In the page, a reply's callback closes over the handler of the render in which it was scheduled. If the user switches chats before the reply arrives, the page appends the reply to the messages on display but stores it in the chat that was active when the message was sent. The model appends it to both the display and the current active chat.
- `Text.Lower` lower-cases ASCII letters only. JavaScript's `toLowerCase` folds case across all of Unicode.
- Text lengths count Unicode scalar values. JavaScript counts UTF-16 code units. The two differ for characters outside the Basic Multilingual Plane, and that changes the delay and the 30-character title cut for such text.
- The page has no stop or cancel control, so cancellation is not modelled.
- The disabled text area and voice button of the composer are not modelled as blocking events. The send guard's own `disabled` check is modelled.
