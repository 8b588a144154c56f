/** The conversation store of the chat page: the list of chats, the id of
    the active chat and the message list on display, with the handlers for
    new, select, delete, rename, regenerate and send.

    Each handler is an atomic transition. It is given twice: as a function
    on a `StoreState` value, about which the store's properties are proved,
    and as a method of `ChatStore`, which updates the three state cells
    step by step and promises the function's result. The current time, the
    `Date.now()` ids and the random choices are parameters. */
module Conversations {
  import opened Lists
  import opened Text

  datatype Role = User | Assistant

  datatype Message = Message(id: string, content: string, role: Role, timestamp: string)

  datatype Chat = Chat(id: string, title: string, timestamp: string, messages: seq<Message>)

  /** The three state cells: `chats`, `activeChat` and `messages`. */
  datatype StoreState = StoreState(chats: seq<Chat>, activeChat: Option<string>, messages: seq<Message>)

  const NewChatTitle := "New conversation"
  const JustNow := "Just now"
  /** How many characters of a chat's first message become its title. */
  const TitleLength := 30
  const Ellipsis := "..."

  /** The canned texts a regenerated message is given, one chosen at random. */
  const RegenerationPool: seq<string> := [
    "Here's an alternative perspective on your question...",
    "Let me approach this differently and provide another viewpoint...",
    "I can offer a fresh take on this topic...",
    "Allow me to reconsider and give you an updated response..."
  ]

  /** The chats the page starts with; the first one is active. */
  const InitialChats: seq<Chat> := [
    Chat("1", "Getting started with AI", "2 hours ago",
         [Message("1", "Hello! How can I help you today?", Assistant, "2 hours ago")]),
    Chat("2", "JavaScript concepts explained", "Yesterday", []),
    Chat("3", "Creative writing tips", "3 days ago", [])
  ]

  // ---------------------------------------------------------------------
  // Lookups

  /** The position of the first chat with this id, or -1 when there is none. */
  function ChatIndex(chats: seq<Chat>, id: string): (k: int)
    ensures -1 <= k < |chats|
    ensures k == -1 <==> forall i :: 0 <= i < |chats| ==> chats[i].id != id
    ensures k >= 0 ==> chats[k].id == id && forall j :: 0 <= j < k ==> chats[j].id != id
  {
    if chats == [] then -1
    else if chats[0].id == id then 0
    else
      var k := ChatIndex(chats[1..], id);
      if k == -1 then -1 else k + 1
  }

  /** `chats.find(chat => chat.id === id)`: the first chat with this id. */
  function FindChat(chats: seq<Chat>, id: string): (r: Option<Chat>)
    ensures r.None? <==> forall i :: 0 <= i < |chats| ==> chats[i].id != id
    ensures r.Some? ==> r.value in chats && r.value.id == id
    ensures r.Some? ==>
      exists k :: 0 <= k < |chats| && chats[k] == r.value && forall j :: 0 <= j < k ==> chats[j].id != id
  {
    var k := ChatIndex(chats, id);
    if k == -1 then None else Some(chats[k])
  }

  /** `messages.findIndex(m => m.id === id)`: the position of the first
      message with this id, or -1 when there is none. */
  function MessageIndex(msgs: seq<Message>, id: string): (k: int)
    ensures -1 <= k < |msgs|
    ensures k == -1 <==> forall i :: 0 <= i < |msgs| ==> msgs[i].id != id
    ensures k >= 0 ==> msgs[k].id == id && forall j :: 0 <= j < k ==> msgs[j].id != id
  {
    if msgs == [] then -1
    else if msgs[0].id == id then 0
    else
      var k := MessageIndex(msgs[1..], id);
      if k == -1 then -1 else k + 1
  }

  /** Two chat lists with the same ids position by position find the same
      position for every id. */
  lemma ChatIndexSameIds(a: seq<Chat>, b: seq<Chat>, id: string)
    requires |a| == |b|
    requires forall i :: 0 <= i < |a| ==> a[i].id == b[i].id
    ensures ChatIndex(a, id) == ChatIndex(b, id)
  {
  }

  // ---------------------------------------------------------------------
  // Per-chat list transformations (the `filter` and `map` expressions)

  /** `chats.filter(chat => chat.id !== id)`: no chat with the id is left
      and the list does not grow. `WithoutChatMembers` and
      `WithoutChatConcat` fix the result exactly. */
  function WithoutChat(chats: seq<Chat>, id: string): (r: seq<Chat>)
    ensures |r| <= |chats|
    ensures forall i :: 0 <= i < |r| ==> r[i].id != id
  {
    if chats == [] then []
    else if chats[0].id != id then [chats[0]] + WithoutChat(chats[1..], id)
    else WithoutChat(chats[1..], id)
  }

  /** Removal keeps exactly the chats whose id differs, without reordering
      them. */
  lemma {:induction false} WithoutChatMembers(chats: seq<Chat>, id: string)
    ensures forall c :: c in WithoutChat(chats, id) <==> c in chats && c.id != id
    ensures IsSubsequence(WithoutChat(chats, id), chats)
    decreases |chats|
  {
    if chats != [] {
      var rest := WithoutChat(chats[1..], id);
      WithoutChatMembers(chats[1..], id);
      assert chats == [chats[0]] + chats[1..];
      if chats[0].id != id {
        assert ([chats[0]] + rest)[1..] == rest;
      } else {
        SubsequenceCons(rest, chats[0], chats[1..]);
      }
    }
  }

  /** Removal from a list with one chat put in front. */
  lemma WithoutChatCons(c: Chat, rest: seq<Chat>, id: string)
    ensures WithoutChat([c] + rest, id)
      == if c.id != id then [c] + WithoutChat(rest, id) else WithoutChat(rest, id)
  {
    assert ([c] + rest)[0] == c && ([c] + rest)[1..] == rest;
  }

  /** Removal works list segment by list segment, so it keeps the order
      of what remains. */
  lemma {:induction false} WithoutChatConcat(a: seq<Chat>, b: seq<Chat>, id: string)
    ensures WithoutChat(a + b, id) == WithoutChat(a, id) + WithoutChat(b, id)
    decreases |a|
  {
    if a == [] {
      assert a + b == b;
    } else {
      var c, tail := a[0], a[1..];
      WithoutChatConcat(tail, b, id);
      HeadTail(a, b);
      WithoutChatCons(c, tail + b, id);
      WithoutChatCons(c, tail, id);
      ConsAppend(c, WithoutChat(tail, id), WithoutChat(b, id));
    }
  }

  /** Removing an id no chat has changes nothing. */
  lemma {:induction false} WithoutAbsentChat(chats: seq<Chat>, id: string)
    requires forall i :: 0 <= i < |chats| ==> chats[i].id != id
    ensures WithoutChat(chats, id) == chats
    decreases |chats|
  {
    if chats != [] {
      WithoutAbsentChat(chats[1..], id);
    }
  }

  /** Looking up an id in a list with one chat put in front. */
  lemma FindChatCons(c: Chat, rest: seq<Chat>, id: string)
    ensures FindChat([c] + rest, id) == if c.id == id then Some(c) else FindChat(rest, id)
  {
    assert ([c] + rest)[1..] == rest;
  }

  /** Removal keeps the first chat of every other id. */
  lemma {:induction false} FindChatWithout(chats: seq<Chat>, id: string, other: string)
    requires other != id
    ensures FindChat(WithoutChat(chats, id), other) == FindChat(chats, other)
    decreases |chats|
  {
    if chats != [] {
      var c, rest := chats[0], WithoutChat(chats[1..], id);
      FindChatWithout(chats[1..], id, other);
      assert chats == [c] + chats[1..];
      FindChatCons(c, chats[1..], other);
      if c.id != id {
        FindChatCons(c, rest, other);
      }
    }
  }

  /** `chats.map(chat => chat.id === id ? { ...chat, title } : chat)`:
      the chats with this id get the new title, as given, and nothing else
      in any chat changes. */
  function Renamed(chats: seq<Chat>, id: string, title: string): (r: seq<Chat>)
    ensures |r| == |chats|
    ensures forall i :: 0 <= i < |r| ==>
      r[i].id == chats[i].id && r[i].timestamp == chats[i].timestamp
      && r[i].messages == chats[i].messages
      && r[i].title == (if chats[i].id == id then title else chats[i].title)
  {
    if chats == [] then []
    else
      var c := chats[0];
      [if c.id == id then c.(title := title) else c] + Renamed(chats[1..], id, title)
  }

  /** `chats.map(chat => chat.id === active ? { ...chat, messages } : chat)`:
      every chat whose id is the active one gets `msgs`; nothing else
      changes. With no active chat no chat changes. */
  function WithMessages(chats: seq<Chat>, active: Option<string>, msgs: seq<Message>): (r: seq<Chat>)
    ensures |r| == |chats|
    ensures forall i :: 0 <= i < |r| ==>
      r[i].id == chats[i].id && r[i].title == chats[i].title
      && r[i].timestamp == chats[i].timestamp
      && r[i].messages == (if active == Some(chats[i].id) then msgs else chats[i].messages)
  {
    if chats == [] then []
    else
      var c := chats[0];
      [if active == Some(c.id) then c.(messages := msgs) else c] + WithMessages(chats[1..], active, msgs)
  }

  /** `content.slice(0, 30) + "..."`: the ellipsis is added whatever the
      length of the content. */
  function TitleFor(content: string): (t: string)
    ensures |t| == (if |content| < TitleLength then |content| else TitleLength) + |Ellipsis|
    ensures t[..|t| - |Ellipsis|] == content[..|t| - |Ellipsis|]
    ensures t[|t| - |Ellipsis|..] == Ellipsis
  {
    (if |content| <= TitleLength then content else content[..TitleLength]) + Ellipsis
  }

  /** The chat after `m` is sent while it is the active one: `m` is
      appended, the timestamp becomes "Just now", and the title is derived
      from `m` only if the chat had no messages before. */
  function SentTo(c: Chat, m: Message): (r: Chat)
    ensures r.id == c.id && r.messages == c.messages + [m] && r.timestamp == JustNow
    ensures |c.messages| == 0 ==> r.title == TitleFor(m.content)
    ensures |c.messages| > 0 ==> r.title == c.title
  {
    c.(messages := c.messages + [m],
       title := if |c.messages| == 0 then TitleFor(m.content) else c.title,
       timestamp := JustNow)
  }

  /** The `map` of the send handler: every chat whose id is the active one
      receives `m`; the others are unchanged. */
  function WithSent(chats: seq<Chat>, active: Option<string>, m: Message): (r: seq<Chat>)
    ensures |r| == |chats|
    ensures forall i :: 0 <= i < |r| ==>
      r[i] == (if active == Some(chats[i].id) then SentTo(chats[i], m) else chats[i])
  {
    if chats == [] then []
    else
      var c := chats[0];
      [if active == Some(c.id) then SentTo(c, m) else c] + WithSent(chats[1..], active, m)
  }

  /** The message list after position `k` is regenerated: the message keeps
      its id, role and place, takes the new content and timestamp, and no
      other message changes. */
  function Regenerated(msgs: seq<Message>, k: nat, content: string, time: string): (r: seq<Message>)
    requires k < |msgs|
    ensures |r| == |msgs|
    ensures r[k].id == msgs[k].id && r[k].role == msgs[k].role
    ensures r[k].content == content && r[k].timestamp == time
    ensures forall i :: 0 <= i < |msgs| && i != k ==> r[i] == msgs[i]
  {
    msgs[k := msgs[k].(content := content, timestamp := time)]
  }

  // ---------------------------------------------------------------------
  // The handlers, as transitions of the store state

  /** The state the page starts in: chat "1" active and its messages shown. */
  function InitialState(): (r: StoreState)
    ensures r.chats == InitialChats && r.activeChat == Some("1")
    ensures r.messages == InitialChats[0].messages
  {
    var found := FindChat(InitialChats, "1");
    StoreState(InitialChats, Some("1"), if found.Some? then found.value.messages else [])
  }

  /** `handleNewChat`: a fresh empty chat goes in front of the list, the
      existing chats keep their order and contents, the new chat becomes
      active and no messages are shown. */
  function NewChat(s: StoreState, id: string): (r: StoreState)
    ensures |r.chats| == |s.chats| + 1 && r.chats[1..] == s.chats
    ensures r.chats[0] == Chat(id, NewChatTitle, JustNow, [])
    ensures r.activeChat == Some(id) && r.messages == []
  {
    StoreState([Chat(id, NewChatTitle, JustNow, [])] + s.chats, Some(id), [])
  }

  /** `handleSelectChat`: the id becomes active even if no chat has it; the
      messages shown are those of the first chat with that id, or none. */
  function Select(s: StoreState, id: string): (r: StoreState)
    ensures r.chats == s.chats && r.activeChat == Some(id)
    ensures ChatIndex(s.chats, id) >= 0 ==> r.messages == s.chats[ChatIndex(s.chats, id)].messages
    ensures ChatIndex(s.chats, id) == -1 ==> r.messages == []
  {
    var found := FindChat(s.chats, id);
    StoreState(s.chats, Some(id), if found.Some? then found.value.messages else [])
  }

  /** `handleDeleteChat`: every chat with the id goes and the others stay in
      order. If the deleted chat was active, the first remaining chat
      becomes active with its messages shown, or nothing is active and no
      messages are shown; otherwise the active chat and the messages shown
      are unchanged. */
  function Delete(s: StoreState, id: string): (r: StoreState)
    ensures r.chats == WithoutChat(s.chats, id)
    ensures forall c :: c in r.chats <==> c in s.chats && c.id != id
    ensures IsSubsequence(r.chats, s.chats)
    ensures s.activeChat != Some(id) ==> r.activeChat == s.activeChat && r.messages == s.messages
    ensures s.activeChat == Some(id) && r.chats != [] ==>
      r.activeChat == Some(r.chats[0].id) && r.messages == r.chats[0].messages
    ensures s.activeChat == Some(id) && r.chats == [] ==> r.activeChat == None && r.messages == []
  {
    var remaining := WithoutChat(s.chats, id);
    WithoutChatMembers(s.chats, id);
    if s.activeChat == Some(id) then
      if |remaining| > 0 then StoreState(remaining, Some(remaining[0].id), remaining[0].messages)
      else StoreState(remaining, None, [])
    else StoreState(remaining, s.activeChat, s.messages)
  }

  /** `handleRenameChat`: the title is taken as given, without trimming and
      even when empty; only titles change. */
  function Rename(s: StoreState, id: string, title: string): (r: StoreState)
    ensures r.activeChat == s.activeChat && r.messages == s.messages
    ensures r.chats == Renamed(s.chats, id, title)
  {
    StoreState(Renamed(s.chats, id, title), s.activeChat, s.messages)
  }

  /** `handleRegenerateMessage`: nothing happens when no message on display
      has the id. Otherwise the first such message takes the new content
      and timestamp, keeping its id, role and place, and the active chat's
      messages become the new list. */
  function Regenerate(s: StoreState, messageId: string, content: string, time: string): (r: StoreState)
    ensures MessageIndex(s.messages, messageId) == -1 ==> r == s
    ensures MessageIndex(s.messages, messageId) >= 0 ==>
      r.activeChat == s.activeChat
      && r.messages == Regenerated(s.messages, MessageIndex(s.messages, messageId), content, time)
      && r.chats == WithMessages(s.chats, s.activeChat, r.messages)
  {
    var k := MessageIndex(s.messages, messageId);
    if k == -1 then s
    else
      var msgs := Regenerated(s.messages, k, content, time);
      StoreState(WithMessages(s.chats, s.activeChat, msgs), s.activeChat, msgs)
  }

  /** `handleSendMessage`: one new message, with the content as given, is
      appended to the messages shown, and every chat with the active id
      receives it as `SentTo` says (appended, "Just now", a title from the
      content if it was the chat's first message); with no active chat, or
      one no chat has, no chat changes. */
  function Send(s: StoreState, content: string, id: string, role: Role, time: string): (r: StoreState)
    ensures r.activeChat == s.activeChat
    ensures r.messages == s.messages + [Message(id, content, role, time)]
    ensures r.chats == WithSent(s.chats, s.activeChat, Message(id, content, role, time))
    ensures |r.chats| == |s.chats|
    ensures (s.activeChat.None? || ChatIndex(s.chats, s.activeChat.value) == -1) ==> r.chats == s.chats
  {
    var m := Message(id, content, role, time);
    var chats := WithSent(s.chats, s.activeChat, m);
    assert (s.activeChat.None? || ChatIndex(s.chats, s.activeChat.value) == -1) ==> chats == s.chats;
    StoreState(chats, s.activeChat, s.messages + [m])
  }

  // ---------------------------------------------------------------------
  // The store's invariant: what is shown is the active chat's messages

  /** When the active id belongs to a chat, the messages on display are
      those of the first chat with that id. */
  predicate Synced(s: StoreState)
    ensures Synced(s) <==>
      (s.activeChat.Some? && ChatIndex(s.chats, s.activeChat.value) >= 0
       ==> s.messages == s.chats[ChatIndex(s.chats, s.activeChat.value)].messages)
  {
    s.activeChat.Some? ==>
      var found := FindChat(s.chats, s.activeChat.value);
      found.Some? ==> s.messages == found.value.messages
  }

  lemma InitialSynced()
    ensures Synced(InitialState())
  {
  }

  lemma NewChatSynced(s: StoreState, id: string)
    ensures Synced(NewChat(s, id))
  {
  }

  lemma SelectSynced(s: StoreState, id: string)
    ensures Synced(Select(s, id))
  {
  }

  lemma DeleteSynced(s: StoreState, id: string)
    requires Synced(s)
    ensures Synced(Delete(s, id))
  {
    if s.activeChat.Some? && s.activeChat.value != id {
      FindChatWithout(s.chats, id, s.activeChat.value);
    }
  }

  lemma RenameSynced(s: StoreState, id: string, title: string)
    requires Synced(s)
    ensures Synced(Rename(s, id, title))
  {
    if s.activeChat.Some? {
      ChatIndexSameIds(Renamed(s.chats, id, title), s.chats, s.activeChat.value);
    }
  }

  lemma RegenerateSynced(s: StoreState, messageId: string, content: string, time: string)
    requires Synced(s)
    ensures Synced(Regenerate(s, messageId, content, time))
  {
    var r := Regenerate(s, messageId, content, time);
    if s.activeChat.Some? && r != s {
      ChatIndexSameIds(r.chats, s.chats, s.activeChat.value);
    }
  }

  /** Sending keeps the invariant because the message shown and the active
      chat's list had the same messages before and both get the same new
      one. */
  lemma SendSynced(s: StoreState, content: string, id: string, role: Role, time: string)
    requires Synced(s)
    ensures Synced(Send(s, content, id, role, time))
  {
    var r := Send(s, content, id, role, time);
    if s.activeChat.Some? {
      ChatIndexSameIds(r.chats, s.chats, s.activeChat.value);
    }
  }

  // ---------------------------------------------------------------------
  // The store as the page holds it: three cells updated by the handlers

  class ChatStore {
    var chats: seq<Chat>
    var activeChat: Option<string>
    var messages: seq<Message>

    function State(): StoreState
      reads this
    {
      StoreState(chats, activeChat, messages)
    }

    constructor ()
      ensures State() == InitialState() && Synced(State())
    {
      chats := InitialChats;
      activeChat := Some("1");
      var found := FindChat(InitialChats, "1");
      messages := if found.Some? then found.value.messages else [];
      InitialSynced();
    }

    /** `id` stands for `Date.now().toString()`. */
    method HandleNewChat(id: string)
      modifies this
      ensures State() == NewChat(old(State()), id)
      ensures Synced(State())
    {
      var newChat := Chat(id, NewChatTitle, JustNow, []);
      chats := [newChat] + chats;
      activeChat := Some(newChat.id);
      messages := [];
      NewChatSynced(old(State()), id);
    }

    method HandleSelectChat(chatId: string)
      modifies this
      ensures State() == Select(old(State()), chatId)
      ensures Synced(State())
    {
      activeChat := Some(chatId);
      var selected := FindChat(chats, chatId);
      messages := if selected.Some? then selected.value.messages else [];
      SelectSynced(old(State()), chatId);
    }

    method HandleDeleteChat(chatId: string)
      modifies this
      ensures State() == Delete(old(State()), chatId)
      ensures old(Synced(State())) ==> Synced(State())
    {
      var remaining := WithoutChat(chats, chatId);
      var wasActive := activeChat == Some(chatId);
      chats := remaining;
      if wasActive {
        if |remaining| > 0 {
          activeChat := Some(remaining[0].id);
          messages := remaining[0].messages;
        } else {
          activeChat := None;
          messages := [];
        }
      }
      if old(Synced(State())) {
        DeleteSynced(old(State()), chatId);
      }
    }

    method HandleRenameChat(chatId: string, newTitle: string)
      modifies this
      ensures State() == Rename(old(State()), chatId, newTitle)
      ensures old(Synced(State())) ==> Synced(State())
    {
      chats := Renamed(chats, chatId, newTitle);
      if old(Synced(State())) {
        RenameSynced(old(State()), chatId, newTitle);
      }
    }

    /** `pick` stands for the random index into the regeneration pool and
        `time` for the local time of day. */
    method HandleRegenerateMessage(messageId: string, pick: nat, time: string)
      requires pick < |RegenerationPool|
      modifies this
      ensures State() == Regenerate(old(State()), messageId, RegenerationPool[pick], time)
      ensures old(Synced(State())) ==> Synced(State())
    {
      var messageIndex := MessageIndex(messages, messageId);
      if messageIndex != -1 {
        var updated := messages[messageIndex].(content := RegenerationPool[pick], timestamp := time);
        var newMessages := messages;
        newMessages := newMessages[messageIndex := updated];
        messages := newMessages;
        chats := WithMessages(chats, activeChat, newMessages);
      }
      if old(Synced(State())) {
        RegenerateSynced(old(State()), messageId, RegenerationPool[pick], time);
      }
    }

    /** `id` stands for `Date.now().toString()`, `role` for the coin flip
        that picks the message's role and `time` for the local time of day. */
    method HandleSendMessage(content: string, id: string, role: Role, time: string)
      modifies this
      ensures State() == Send(old(State()), content, id, role, time)
      ensures old(Synced(State())) ==> Synced(State())
    {
      var newMessage := Message(id, content, role, time);
      messages := messages + [newMessage];
      chats := WithSent(chats, activeChat, newMessage);
      if old(Synced(State())) {
        SendSynced(old(State()), content, id, role, time);
      }
    }
  }
}
