/** The chat view: it forwards what the composer sends to the store,
    shows a typing indicator (which also disables the composer) until a
    simulated reply arrives, builds the plain-text export and picks the
    composer's placeholder.

    The timer that delivers the reply is an explicit step,
    `DeliverResponse`; its delay is returned by `HandleSendMessage` rather
    than waited for. The random reply is chosen by an index parameter. */
module Interface {
  import opened Lists
  import opened Text
  import opened Conversations
  import opened Input

  /** The canned replies, one chosen at random after each send. */
  const CannedResponses: seq<string> := [
    "I understand you're looking for help with that. Let me break this down for you step by step and provide a comprehensive solution.",
    "That's a great question! Here's what I think based on the information you've provided, along with some additional insights that might be helpful.",
    "I'd be happy to help you with that. Let me provide you with a detailed answer that covers all the important aspects you should consider.",
    "Thanks for asking! This is an interesting topic that has several dimensions to explore. Let me walk you through my analysis.",
    "I can definitely assist you with this. Here's my detailed response to your query, including some practical examples and recommendations."
  ]

  /** Milliseconds before the reply: a base, a per-character increment and a cap. */
  const BaseDelay := 1000
  const DelayPerChar := 50
  const MaxDelay := 3000

  /** `Math.min(length * 50 + 1000, 3000)`: the smaller of the linear delay
      and the cap, so never below the base nor above the cap. */
  function ResponseDelay(length: nat): (d: nat)
    ensures d <= length * DelayPerChar + BaseDelay && d <= MaxDelay
    ensures d == length * DelayPerChar + BaseDelay || d == MaxDelay
    ensures BaseDelay <= d
  {
    var linear := length * DelayPerChar + BaseDelay;
    if linear < MaxDelay then linear else MaxDelay
  }

  /** A longer message never gets a shorter delay. */
  lemma ResponseDelayMonotone(a: nat, b: nat)
    requires a <= b
    ensures ResponseDelay(a) <= ResponseDelay(b)
  {
  }

  /** From 40 characters on the cap is reached; below it the delay is
      exactly the linear one. */
  lemma ResponseDelaySaturates(length: nat)
    ensures length >= 40 <==> ResponseDelay(length) == MaxDelay
    ensures length < 40 ==> ResponseDelay(length) == length * DelayPerChar + BaseDelay
  {
  }

  function RoleName(r: Role): string
  {
    match r
    case User => "user"
    case Assistant => "assistant"
  }

  /** One message of the export: `${role}: ${content}`. */
  function ExportLine(m: Message): string
  {
    RoleName(m.role) + ": " + m.content
  }

  /** The export's lines, one per message, in message order. */
  function ExportLines(msgs: seq<Message>): (lines: seq<string>)
    ensures |lines| == |msgs|
    ensures forall i :: 0 <= i < |msgs| ==> lines[i] == ExportLine(msgs[i])
  {
    if msgs == [] then [] else [ExportLine(msgs[0])] + ExportLines(msgs[1..])
  }

  const ExportSeparator := "\n\n"

  /** The text `handleExportChat` puts in the downloaded file: one line per
      message, in order, blank-line separated. It is empty exactly when there
      are no messages, since every line holds at least the role and ": ",
      and it begins with the first message's line. */
  function ExportText(msgs: seq<Message>): (t: string)
    ensures t == "" <==> msgs == []
    ensures |msgs| == 1 ==> t == ExportLine(msgs[0])
    ensures msgs != [] ==> StartsWith(t, ExportLine(msgs[0]))
  {
    Join(ExportLines(msgs), ExportSeparator)
  }

  lemma ExportLinesConcat(a: seq<Message>, b: seq<Message>)
    ensures ExportLines(a + b) == ExportLines(a) + ExportLines(b)
  {
  }

  /** Exporting a conversation with one more message appends that
      message's line, after a separator unless it is the first. */
  lemma ExportAppend(msgs: seq<Message>, m: Message)
    ensures ExportText(msgs + [m])
      == if msgs == [] then ExportLine(m) else ExportText(msgs) + ExportSeparator + ExportLine(m)
  {
    ExportLinesConcat(msgs, [m]);
    assert ExportLines([m]) == [ExportLine(m)];
    if msgs != [] {
      JoinConcat(ExportLines(msgs), [ExportLine(m)], ExportSeparator);
    }
  }

  /** Exporting a conversation cut in two is exporting each part and
      joining them with one separator. */
  lemma ExportConcat(a: seq<Message>, b: seq<Message>)
    requires a != [] && b != []
    ensures ExportText(a + b) == ExportText(a) + ExportSeparator + ExportText(b)
  {
    ExportLinesConcat(a, b);
    JoinConcat(ExportLines(a), ExportLines(b), ExportSeparator);
  }

  const EmptyPlaceholder := "Ask anything..."
  const ReplyPlaceholder := "Type your message..."

  /** The composer's placeholder: an invitation on an empty conversation,
      a prompt to reply otherwise. */
  function Placeholder(msgs: seq<Message>): (p: string)
    ensures p == EmptyPlaceholder <==> msgs == []
    ensures p == ReplyPlaceholder <==> msgs != []
  {
    if |msgs| == 0 then EmptyPlaceholder else ReplyPlaceholder
  }

  /** The view's own state around the store it sends to: whether a reply is
      being awaited, and how many scheduled replies have not fired yet. */
  class ChatInterface {
    const store: ChatStore
    var isTyping: bool
    var pending: nat

    constructor (store: ChatStore)
      ensures this.store == store && !isTyping && pending == 0
    {
      this.store := store;
      isTyping := false;
      pending := 0;
    }

    /** The composer is disabled exactly while a reply is awaited. */
    predicate InputDisabled()
      reads this
    {
      isTyping
    }

    /** `handleSendMessage`: the text goes to the store at once, the view
        starts awaiting a reply, and one reply is scheduled after the
        returned delay. `id`, `role` and `time` are what the store draws for
        the new message. */
    method HandleSendMessage(message: string, id: string, role: Role, time: string) returns (delay: nat)
      modifies this, store
      ensures store.State() == Send(old(store.State()), message, id, role, time)
      ensures isTyping && InputDisabled() && pending == old(pending) + 1
      ensures delay == ResponseDelay(|message|)
    {
      store.HandleSendMessage(message, id, role, time);
      isTyping := true;
      delay := ResponseDelay(|message|);
      pending := pending + 1;
    }

    /** The scheduled reply fires: canned reply number `pick` goes to the
        store like any sent text, and the view stops awaiting. */
    method DeliverResponse(pick: nat, id: string, role: Role, time: string)
      requires pending > 0
      requires pick < |CannedResponses|
      modifies this, store
      ensures store.State() == Send(old(store.State()), CannedResponses[pick], id, role, time)
      ensures !isTyping && !InputDisabled() && pending == old(pending) - 1
    {
      store.HandleSendMessage(CannedResponses[pick], id, role, time);
      isTyping := false;
      pending := pending - 1;
    }
  }

  /** One full exchange from an idle view: the user's text and then one
      canned reply reach the store, in that order, and the view is idle
      again. */
  method SendAndReply(view: ChatInterface, text: string, pick: nat,
                      sentId: string, sentRole: Role, sentTime: string,
                      replyId: string, replyRole: Role, replyTime: string)
    requires !view.isTyping && view.pending == 0
    requires pick < |CannedResponses|
    modifies view, view.store
    ensures view.store.messages == old(view.store.messages)
      + [Message(sentId, text, sentRole, sentTime), Message(replyId, CannedResponses[pick], replyRole, replyTime)]
    ensures !view.isTyping && view.pending == 0
  {
    var sent := Message(sentId, text, sentRole, sentTime);
    var reply := Message(replyId, CannedResponses[pick], replyRole, replyTime);
    ghost var before := view.store.messages;
    var delay := view.HandleSendMessage(text, sentId, sentRole, sentTime);
    assert view.store.messages == before + [sent];
    view.DeliverResponse(pick, replyId, replyRole, replyTime);
    assert view.store.messages == before + [sent] + [reply];
  }

  /** The composer as the view wires it up: it is disabled exactly while a
      reply is awaited, and what it sends goes to `handleSendMessage`. While
      a reply is awaited, or when the buffer is blank, nothing is sent and
      nothing changes. Otherwise the trimmed buffer goes to the store as
      `Send` says, the buffer is cleared, the view starts awaiting a reply,
      and the reply's delay is returned. */
  method ComposerSend(view: ChatInterface, input: ChatInput, id: string, role: Role, time: string)
    returns (delay: Option<nat>)
    modifies view, view.store, input`message
    ensures old(view.InputDisabled()) || Trim(old(input.message)) == "" ==>
      delay == None && input.message == old(input.message)
      && view.store.State() == old(view.store.State())
      && view.isTyping == old(view.isTyping) && view.pending == old(view.pending)
    ensures !old(view.InputDisabled()) && Trim(old(input.message)) != "" ==>
      var text := Trim(old(input.message));
      delay == Some(ResponseDelay(|text|)) && input.message == ""
      && view.store.State() == Send(old(view.store.State()), text, id, role, time)
      && view.InputDisabled() && view.pending == old(view.pending) + 1
  {
    var sent := input.HandleSend(view.InputDisabled());
    if sent.Some? {
      var d := view.HandleSendMessage(sent.value, id, role, time);
      delay := Some(d);
    } else {
      delay := None;
    }
  }
}
