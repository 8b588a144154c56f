/** The sidebar's chat list: the chats whose title contains the search
    text, ignoring case, in list order; the row of the active chat is
    highlighted, and clicking a row selects that row's chat. The search
    text is a parameter: the sidebar only overwrites it from its input. */
module Sidebar {
  import opened Lists
  import opened Text
  import opened Conversations

  /** `title.toLowerCase().includes(query.toLowerCase())`. */
  predicate MatchesQuery(title: string, query: string)
  {
    Includes(Lower(title), Lower(query))
  }

  /** `filteredChats`: every chat shown matches the search text, and no
      more chats are shown than there are. `FilteredMembers` and
      `FilteredConcat` fix the result exactly. */
  function FilteredChats(chats: seq<Chat>, query: string): (r: seq<Chat>)
    ensures |r| <= |chats|
    ensures forall i :: 0 <= i < |r| ==> MatchesQuery(r[i].title, query)
  {
    if chats == [] then []
    else if MatchesQuery(chats[0].title, query) then [chats[0]] + FilteredChats(chats[1..], query)
    else FilteredChats(chats[1..], query)
  }

  /** A chat is shown exactly when it is in the list and its title matches
      the search text; the chats shown are taken from the list without
      reordering. */
  lemma {:induction false} FilteredMembers(chats: seq<Chat>, query: string)
    ensures forall c :: c in FilteredChats(chats, query) <==> c in chats && MatchesQuery(c.title, query)
    ensures IsSubsequence(FilteredChats(chats, query), chats)
    decreases |chats|
  {
    if chats != [] {
      var rest := FilteredChats(chats[1..], query);
      FilteredMembers(chats[1..], query);
      assert chats == [chats[0]] + chats[1..];
      if MatchesQuery(chats[0].title, query) {
        assert ([chats[0]] + rest)[1..] == rest;
      } else {
        SubsequenceCons(rest, chats[0], chats[1..]);
      }
    }
  }

  /** With an empty search every chat is shown, in list order. */
  lemma {:induction false} EmptyQueryShowsAll(chats: seq<Chat>)
    ensures FilteredChats(chats, "") == chats
    decreases |chats|
  {
    if chats != [] {
      EmptyQueryShowsAll(chats[1..]);
      assert Lower("") == "";
    }
  }

  /** Filtering a list with one chat put in front. */
  lemma FilteredCons(c: Chat, rest: seq<Chat>, query: string)
    ensures FilteredChats([c] + rest, query)
      == if MatchesQuery(c.title, query) then [c] + FilteredChats(rest, query) else FilteredChats(rest, query)
  {
    assert ([c] + rest)[0] == c && ([c] + rest)[1..] == rest;
  }

  /** Filtering works list segment by list segment, so the chats shown
      appear in the order of the full list. */
  lemma {:induction false} FilteredConcat(a: seq<Chat>, b: seq<Chat>, query: string)
    ensures FilteredChats(a + b, query) == FilteredChats(a, query) + FilteredChats(b, query)
    decreases |a|
  {
    if a == [] {
      assert a + b == b;
    } else {
      var c, tail := a[0], a[1..];
      FilteredConcat(tail, b, query);
      HeadTail(a, b);
      FilteredCons(c, tail + b, query);
      FilteredCons(c, tail, query);
      ConsAppend(c, FilteredChats(tail, query), FilteredChats(b, query));
    }
  }

  /** One entry of the list as shown: the chat's id, which its click hands
      to `onSelectChat`, its title and timestamp, and whether it is
      highlighted. */
  datatype Row = Row(chatId: string, title: string, timestamp: string, highlighted: bool)

  /** A row is highlighted exactly when its chat's id is the active one. */
  function RowFor(c: Chat, activeChat: Option<string>): (row: Row)
    ensures row.chatId == c.id && row.title == c.title && row.timestamp == c.timestamp
    ensures row.highlighted <==> activeChat == Some(c.id)
  {
    Row(c.id, c.title, c.timestamp, activeChat == Some(c.id))
  }

  /** The rows of the chat list, one per filtered chat, in order. */
  function Rows(chats: seq<Chat>, activeChat: Option<string>, query: string): (rows: seq<Row>)
    ensures var shown := FilteredChats(chats, query);
      |rows| == |shown| && forall i :: 0 <= i < |rows| ==> rows[i] == RowFor(shown[i], activeChat)
  {
    var shown := FilteredChats(chats, query);
    seq(|shown|, i requires 0 <= i < |shown| => RowFor(shown[i], activeChat))
  }

  /** Clicking row `i` selects the row's chat: its id becomes active and,
      with the search unchanged, that same row is the one highlighted. The
      messages shown are those of the first chat with that id, which is the
      clicked chat itself when ids are distinct. */
  lemma ClickSelects(s: StoreState, query: string, i: nat)
    requires i < |Rows(s.chats, s.activeChat, query)|
    ensures var clicked := FilteredChats(s.chats, query)[i];
      var r := Select(s, Rows(s.chats, s.activeChat, query)[i].chatId);
      r.activeChat == Some(clicked.id)
      && Rows(r.chats, r.activeChat, query)[i].highlighted
      && FindChat(r.chats, clicked.id).Some?
      && r.messages == FindChat(r.chats, clicked.id).value.messages
      && ((forall j, k :: 0 <= j < k < |s.chats| ==> s.chats[j].id != s.chats[k].id)
          ==> r.messages == clicked.messages)
  {
    var clicked := FilteredChats(s.chats, query)[i];
    FilteredMembers(s.chats, query);
    assert clicked in s.chats;
    var j :| 0 <= j < |s.chats| && s.chats[j] == clicked;
    var k := ChatIndex(s.chats, clicked.id);
    assert k >= 0;
    if forall a, b :: 0 <= a < b < |s.chats| ==> s.chats[a].id != s.chats[b].id {
      assert k == j;
    }
  }
}
