/** The chat screen's state in the browser: the list of conversations, the
    active one, its messages and the two loading flags, together with the
    operations that change them: loading the list, creating, deleting and
    reordering conversations, and sending a message whose answer arrives as
    a stream of `data: <JSON>` lines (or, when the server cannot be reached,
    is typed out from a fixed mock sentence).

    Network replies and clock readings are parameters of the operations. */
module ChatClient {
  import opened Base
  import opened Frames

  datatype ChatSummary = ChatSummary(id: string, title: string, updatedAt: nat)

  datatype Message = Message(id: string, role: Role, content: string, timestamp: nat)

  // ---------------------------------------------------------------------
  // The conversation list.

  /** `chats.findIndex(chat => chat.id === id)`: the first position holding
      `id`, or -1. */
  function FindIndex(chats: seq<ChatSummary>, id: string): (k: int)
    ensures -1 <= k < |chats|
    ensures k >= 0 ==> chats[k].id == id && forall j :: 0 <= j < k ==> chats[j].id != id
    ensures k == -1 ==> forall j :: 0 <= j < |chats| ==> chats[j].id != id
  {
    if chats == [] then -1
    else if chats[0].id == id then 0
    else
      var k := FindIndex(chats[1..], id);
      if k == -1 then -1 else k + 1
  }

  /** Moves the chat at `k` to the front with a fresh `updatedAt`, when `k`
      is a position after the first; any other `k` leaves the list alone. */
  function MoveToFront(chats: seq<ChatSummary>, k: int, now: nat): seq<ChatSummary>
    requires -1 <= k < |chats|
  {
    if k > 0 then [chats[k].(updatedAt := now)] + chats[..k] + chats[k + 1..] else chats
  }

  /** The list `updateChatOrder(id)` leaves behind at time `now`. */
  function Reordered(chats: seq<ChatSummary>, id: string, now: nat): seq<ChatSummary> {
    MoveToFront(chats, FindIndex(chats, id), now)
  }

  function Ids(chats: seq<ChatSummary>): (ids: seq<string>)
    ensures |ids| == |chats|
  {
    seq(|chats|, i requires 0 <= i < |chats| => chats[i].id)
  }

  lemma IdsJoin(a: seq<ChatSummary>, b: seq<ChatSummary>)
    ensures Ids(a + b) == Ids(a) + Ids(b)
  {
  }

  /** Reordering keeps the same chats: as many, with the same ids, each as
      many times. */
  lemma ReorderedKeepsChats(chats: seq<ChatSummary>, id: string, now: nat)
    ensures |Reordered(chats, id, now)| == |chats|
    ensures multiset(Ids(Reordered(chats, id, now))) == multiset(Ids(chats))
  {
    var k := FindIndex(chats, id);
    if k > 0 {
      var c := chats[k];
      var moved := c.(updatedAt := now);
      var before, after := chats[..k], chats[k + 1..];
      assert Ids([c]) == Ids([moved]) == [id];
      assert Ids(Reordered(chats, id, now)) == [id] + Ids(before) + Ids(after) by {
        IdsJoin([moved] + before, after);
        IdsJoin([moved], before);
      }
      assert Ids(chats) == Ids(before) + [id] + Ids(after) by {
        assert chats == before + [c] + after;
        IdsJoin(before + [c], after);
        IdsJoin(before, [c]);
      }
    }
  }

  /** A chat that is already first, or absent, changes nothing, not even a
      timestamp. */
  lemma ReorderedNoop(chats: seq<ChatSummary>, id: string, now: nat)
    ensures (forall i :: 0 <= i < |chats| ==> chats[i].id != id) ==> Reordered(chats, id, now) == chats
    ensures |chats| > 0 && chats[0].id == id ==> Reordered(chats, id, now) == chats
  {
  }

  /** A chat found after the first position comes to the front with the new
      time, and every other chat keeps its relative order. */
  lemma ReorderedMovesToFront(chats: seq<ChatSummary>, id: string, now: nat)
    requires |chats| > 0 && chats[0].id != id
    requires exists i :: 0 <= i < |chats| && chats[i].id == id
    ensures var r, k := Reordered(chats, id, now), FindIndex(chats, id);
      && 0 < k
      && r[0] == chats[k].(updatedAt := now)
      && r[0].id == id
      && r[1..] == chats[..k] + chats[k + 1..]
  {
    var k := FindIndex(chats, id);
    var r := Reordered(chats, id, now);
    assert r[1..] == chats[..k] + chats[k + 1..];
  }

  /** `chats.filter(chat => chat.id !== id)`. */
  function Remaining(chats: seq<ChatSummary>, id: string): seq<ChatSummary> {
    Filter(chats, (c: ChatSummary) => c.id != id)
  }

  /** Deleting removes every chat with that id and keeps every other one. */
  lemma RemainingProps(chats: seq<ChatSummary>, id: string)
    ensures var r := Remaining(chats, id);
      && |r| <= |chats|
      && (forall i :: 0 <= i < |r| ==> r[i].id != id && r[i] in chats)
      && (forall i :: 0 <= i < |chats| && chats[i].id != id ==> chats[i] in r)
  {
    FilterKeeps(chats, (c: ChatSummary) => c.id != id);
  }

  const NewChatTitle: string := "New conversation"
  const MockChatId: string := "mock_chat_1"
  const MockChatTitle: string := "Sample conversation"

  /** The chat created in the browser when the server cannot create one. */
  function LocalChat(now: nat): (c: ChatSummary)
    ensures c.title == NewChatTitle && c.updatedAt == now
  {
    ChatSummary("local_" + NatToString(now), NewChatTitle, now)
  }

  /** Chats created locally at different times never share an id. */
  lemma LocalChatIdsDistinct(t1: nat, t2: nat)
    ensures t1 != t2 ==> LocalChat(t1).id != LocalChat(t2).id
  {
    var p := "local_";
    if LocalChat(t1).id == LocalChat(t2).id {
      assert NatToString(t1) == LocalChat(t1).id[|p|..];
      assert NatToString(t2) == LocalChat(t2).id[|p|..];
      NatToStringInjective(t1, t2);
    }
  }

  function UpdatedAt(c: ChatSummary): int {
    c.updatedAt
  }

  /** What the list request produced: the `chats` field of an OK reply (None
      when the field is missing), or no usable reply at all. */
  datatype ChatListReply = Listed(chats: Option<seq<ChatSummary>>) | Unreachable

  function ListedChats(reply: ChatListReply): seq<ChatSummary>
    requires reply.Listed?
  {
    if reply.chats.Some? then reply.chats.value else []
  }

  /** The loaded list is ordered most recent first, holds exactly the chats
      the server sent, and the chat made active is one of the most recent. */
  lemma LoadedChatsOrdered(listed: seq<ChatSummary>)
    ensures var sorted := SortDesc(listed, UpdatedAt);
      && multiset(sorted) == multiset(listed)
      && (forall i, j :: 0 <= i < j < |sorted| ==> sorted[i].updatedAt >= sorted[j].updatedAt)
      && (forall i :: 0 <= i < |listed| ==> listed[i].updatedAt <= sorted[0].updatedAt)
  {
    var sorted := SortDesc(listed, UpdatedAt);
    SortDescProps(listed, UpdatedAt);
    forall i | 0 <= i < |listed| ensures listed[i].updatedAt <= sorted[0].updatedAt {
      assert listed[i] in multiset(listed);
      assert listed[i] in sorted;
      var j :| 0 <= j < |sorted| && sorted[j] == listed[i];
      if j > 0 { assert UpdatedAt(sorted[0]) >= UpdatedAt(sorted[j]); }
    }
  }

  /** `isLoading || !activeChat || activeChat.trim() === ''`. */
  function InputDisabled(isLoading: bool, activeChat: Option<string>): bool {
    isLoading || !Truthy(activeChat) || Trim(activeChat.value) == ""
  }

  /** The input is disabled exactly while an answer is loading or when there
      is no active chat or its id is all whitespace. */
  lemma InputDisabledIff(isLoading: bool, activeChat: Option<string>)
    ensures InputDisabled(isLoading, activeChat) <==> isLoading || activeChat.None? || Blank(activeChat.value)
  {
    if activeChat.Some? {
      TrimEmptyIffBlank(activeChat.value);
    }
  }

  // ---------------------------------------------------------------------
  // Messages of the active chat.

  /** `msgs.map(msg => msg.id === id ? {...msg, content: msg.content + text} : msg)`. */
  function AppendText(msgs: seq<Message>, id: string, text: string): (r: seq<Message>)
    ensures |r| == |msgs|
  {
    seq(|msgs|, i requires 0 <= i < |msgs| =>
      if msgs[i].id == id then msgs[i].(content := msgs[i].content + text) else msgs[i])
  }

  /** `msgs.map(msg => msg.id === id ? {...msg, content: text} : msg)`. */
  function SetText(msgs: seq<Message>, id: string, text: string): (r: seq<Message>)
    ensures |r| == |msgs|
  {
    seq(|msgs|, i requires 0 <= i < |msgs| =>
      if msgs[i].id == id then msgs[i].(content := text) else msgs[i])
  }

  /** A fragment changes only the messages with the target id, and of those
      only the content, which grows by the fragment. */
  lemma AppendTextOnlyTarget(msgs: seq<Message>, id: string, text: string)
    ensures var r := AppendText(msgs, id, text);
      forall i :: 0 <= i < |msgs| ==>
        if msgs[i].id == id then
          r[i].id == id && r[i].role == msgs[i].role && r[i].timestamp == msgs[i].timestamp
          && r[i].content == msgs[i].content + text
        else r[i] == msgs[i]
  {
  }

  /** Applying two fragments is applying their concatenation. */
  lemma AppendTextTwice(msgs: seq<Message>, id: string, x: string, y: string)
    ensures AppendText(AppendText(msgs, id, x), id, y) == AppendText(msgs, id, x + y)
  {
    var a, b := AppendText(AppendText(msgs, id, x), id, y), AppendText(msgs, id, x + y);
    forall i | 0 <= i < |msgs| ensures a[i] == b[i] {
      if msgs[i].id == id {
        assert msgs[i].content + x + y == msgs[i].content + (x + y);
      }
    }
  }

  lemma AppendTextEmpty(msgs: seq<Message>, id: string)
    ensures AppendText(msgs, id, "") == msgs
  {
    var r := AppendText(msgs, id, "");
    forall i | 0 <= i < |msgs| ensures r[i] == msgs[i] {
      assert msgs[i].content + "" == msgs[i].content;
    }
  }

  /** Setting the text again overrides the earlier setting. */
  lemma SetTextTwice(msgs: seq<Message>, id: string, x: string, y: string)
    ensures SetText(SetText(msgs, id, x), id, y) == SetText(msgs, id, y)
  {
  }

  /** The text a line contributes: the `content` of a `data: ` line whose JSON
      is a content object; nothing for the done object, for malformed JSON
      and for every other line. */
  function LineText(line: string): string {
    if DataPrefix <= line then
      match Decode(line[|DataPrefix|..])
      case Some(Content(t)) => t
      case _ => ""
    else ""
  }

  function LinesText(lines: seq<string>): string {
    ConcatMap(lines, LineText)
  }

  /** The text one chunk contributes: its lines, split at every line break. */
  function ChunkText(chunk: string): string {
    LinesText(Split(chunk, '\n'))
  }

  /** The text a whole stream contributes, chunk after chunk. */
  function StreamText(chunks: seq<string>): string {
    ConcatMap(chunks, ChunkText)
  }

  /** A content frame's line delivers exactly its text. */
  lemma ContentLineText(t: string)
    ensures LineText(DataPrefix + Encode(Content(t))) == t
  {
    var line := DataPrefix + Encode(Content(t));
    assert line[|DataPrefix|..] == Encode(Content(t));
    DecodeEncode(Content(t));
  }

  /** The done frame's line, lines without the `data: ` prefix and lines
      whose JSON is not a content object contribute nothing. */
  lemma IgnoredLines(line: string)
    ensures line == DataPrefix + Encode(Done) ==> LineText(line) == ""
    ensures !(DataPrefix <= line) ==> LineText(line) == ""
    ensures DataPrefix <= line && Decode(line[|DataPrefix|..]).None? ==> LineText(line) == ""
  {
    if line == DataPrefix + Encode(Done) {
      assert line[|DataPrefix|..] == Encode(Done);
      DecodeEncode(Done);
    }
  }

  // ---------------------------------------------------------------------
  // Sending a message.

  const MockReply: string := "This is a mock streaming response. The server will provide real OpenAI responses when configured properly."

  lemma MockReplyNonEmpty()
    ensures MockReply != ""
  {
    assert |MockReply| == 106;
  }

  /** What the stream request produced: no usable reply (the request threw or
      the status was not OK), an OK reply without a body, or a body read as
      `chunks`, after which the stream either ended or the next read threw. */
  datatype StreamReply = Unavailable | NoBody | Body(chunks: seq<string>, interrupted: bool)

  /** The clock readings the handler takes: when the user message is made,
      when the placeholder is made after an OK reply, when the fallback
      message is made, and when the chat is moved to the top. */
  datatype Clock = Clock(sent: nat, answered: nat, fellBack: nat, reordered: nat)

  predicate Monotone(clock: Clock) {
    clock.sent <= clock.answered <= clock.fellBack
  }

  function UserMessage(content: string, t: nat): Message {
    Message(NatToString(t), User, content, t)
  }

  /** The empty assistant message `(Date.now() + 1).toString()` names. */
  function Placeholder(t: nat): (m: Message)
    ensures m.role == Assistant && m.content == "" && m.id == NatToString(t + 1)
  {
    Message(NatToString(t + 1), Assistant, "", t)
  }

  /** The fallback: a new empty assistant message, then typed out in full. */
  function MockTyped(msgs: seq<Message>, t: nat): seq<Message> {
    SetText(msgs + [Placeholder(t)], Placeholder(t).id, MockReply)
  }

  /** The message list after sending `content` from an active chat. */
  function SentMessages(before: seq<Message>, content: string, reply: StreamReply, clock: Clock): seq<Message> {
    var asked := before + [UserMessage(content, clock.sent)];
    match reply
    case Unavailable => MockTyped(asked, clock.fellBack)
    case NoBody => asked + [Placeholder(clock.answered)]
    case Body(chunks, interrupted) =>
      var streamed := AppendText(asked + [Placeholder(clock.answered)], Placeholder(clock.answered).id, StreamText(chunks));
      if interrupted then MockTyped(streamed, clock.fellBack) else streamed
  }

  lemma SetTextKeepsOthers(msgs: seq<Message>, id: string, text: string, i: nat)
    requires i < |msgs| && msgs[i].id != id
    ensures SetText(msgs, id, text)[i] == msgs[i]
  {
  }

  /** Whatever happens to the request, the earlier messages not sharing an id
      with an assistant message of this turn are kept, and the user's message
      follows them, ahead of every answer. */
  lemma SendKeepsHistory(before: seq<Message>, content: string, reply: StreamReply, clock: Clock)
    requires Monotone(clock)
    ensures var r := SentMessages(before, content, reply, clock);
      && |r| >= |before| + 2
      && r[|before|] == UserMessage(content, clock.sent)
      && (forall i :: 0 <= i < |before| ==>
            (before[i].id != Placeholder(clock.answered).id && before[i].id != Placeholder(clock.fellBack).id
             ==> r[i] == before[i]))
  {
    NatToStringInjective(clock.sent, clock.answered + 1);
    NatToStringInjective(clock.sent, clock.fellBack + 1);
  }

  /** A stream that ends normally leaves, right after the user's message, one
      assistant message holding exactly the streamed text. */
  lemma SendStreamed(before: seq<Message>, content: string, chunks: seq<string>, clock: Clock)
    ensures var r := SentMessages(before, content, Body(chunks, false), clock);
      && |r| == |before| + 2
      && r[|before| + 1] == Placeholder(clock.answered).(content := StreamText(chunks))
  {
  }

  /** Without a usable reply, one assistant message is added and ends up
      holding the whole mock sentence. */
  lemma SendUnavailable(before: seq<Message>, content: string, clock: Clock)
    ensures var r := SentMessages(before, content, Unavailable, clock);
      && |r| == |before| + 2
      && r[|before| + 1] == Placeholder(clock.fellBack).(content := MockReply)
  {
  }

  /** A stream that breaks off leaves two assistant messages: the placeholder
      with what had arrived (when the two were made at different times) and
      the mock answer after it. */
  lemma SendInterrupted(before: seq<Message>, content: string, chunks: seq<string>, clock: Clock)
    requires Monotone(clock)
    ensures var r := SentMessages(before, content, Body(chunks, true), clock);
      && |r| == |before| + 3
      && r[|before| + 2] == Placeholder(clock.fellBack).(content := MockReply)
      && (clock.answered != clock.fellBack ==>
            r[|before| + 1] == Placeholder(clock.answered).(content := StreamText(chunks)))
  {
    var asked := before + [UserMessage(content, clock.sent)];
    var streamed := AppendText(asked + [Placeholder(clock.answered)], Placeholder(clock.answered).id, StreamText(chunks));
    if clock.answered != clock.fellBack {
      NatToStringInjective(clock.answered + 1, clock.fellBack + 1);
      SetTextKeepsOthers(streamed + [Placeholder(clock.fellBack)], Placeholder(clock.fellBack).id, MockReply, |before| + 1);
    }
  }

  /** The chat screen's state. */
  class ChatView {
    var chats: seq<ChatSummary>
    var activeChat: Option<string>
    var messages: seq<Message>
    var isLoading: bool
    var loadingChats: bool

    constructor ()
      ensures chats == [] && activeChat == None && messages == []
      ensures !isLoading && loadingChats
    {
      chats := [];
      activeChat := None;
      messages := [];
      isLoading := false;
      loadingChats := true;
    }

    /** `loadChats`: sort what the server sent and activate the first chat,
        or fall back to the single mock chat. */
    method LoadChats(reply: ChatListReply, now: nat)
      modifies this
      ensures reply.Listed? ==>
        && chats == SortDesc(ListedChats(reply), UpdatedAt)
        && activeChat == (if chats != [] then Some(chats[0].id) else old(activeChat))
      ensures reply.Unreachable? ==>
        chats == [ChatSummary(MockChatId, MockChatTitle, now)] && activeChat == Some(MockChatId)
      ensures !loadingChats
      ensures messages == old(messages) && isLoading == old(isLoading)
    {
      match reply {
        case Listed(_) =>
          var sorted := SortDesc(ListedChats(reply), UpdatedAt);
          chats := sorted;
          if |sorted| > 0 {
            activeChat := Some(sorted[0].id);
          }
        case Unreachable =>
          var mock := ChatSummary(MockChatId, MockChatTitle, now);
          chats := [mock];
          activeChat := Some(mock.id);
      }
      loadingChats := false;
    }

    /** `handleNewChat`: the server's new chat, or a local one when the
        server does not create it, goes first and becomes active. */
    method NewChat(created: Option<ChatSummary>, now: nat)
      modifies this
      ensures var c := if created.Some? then created.value else LocalChat(now);
        chats == [c] + old(chats) && activeChat == Some(c.id) && messages == []
      ensures isLoading == old(isLoading) && loadingChats == old(loadingChats)
    {
      var chat := if created.Some? then created.value else LocalChat(now);
      chats := [chat] + chats;
      activeChat := Some(chat.id);
      messages := [];
    }

    /** `handleDeleteChat`: when the server confirms, drop the chat and, if
        it was active, activate the first remaining one or clear the
        screen; otherwise nothing changes. */
    method DeleteChat(id: string, confirmed: bool)
      modifies this
      ensures !confirmed ==> chats == old(chats) && activeChat == old(activeChat) && messages == old(messages)
      ensures confirmed ==> chats == Remaining(old(chats), id)
      ensures confirmed && old(activeChat) == Some(id) && chats != [] ==>
        activeChat == Some(chats[0].id) && messages == old(messages)
      ensures confirmed && old(activeChat) == Some(id) && chats == [] ==>
        activeChat == None && messages == []
      ensures confirmed && old(activeChat) != Some(id) ==>
        activeChat == old(activeChat) && messages == old(messages)
      ensures isLoading == old(isLoading) && loadingChats == old(loadingChats)
    {
      if confirmed {
        var remaining := Remaining(chats, id);
        if activeChat == Some(id) {
          if |remaining| > 0 {
            activeChat := Some(remaining[0].id);
          } else {
            activeChat := None;
            messages := [];
          }
        }
        chats := remaining;
      }
    }

    /** `updateChatOrder`: find the chat, and when it is not already first,
        splice it out and put it back at the front with the new time. */
    method UpdateChatOrder(id: string, now: nat)
      modifies this
      ensures chats == Reordered(old(chats), id, now)
      ensures activeChat == old(activeChat) && messages == old(messages)
      ensures isLoading == old(isLoading) && loadingChats == old(loadingChats)
    {
      var updated := chats;
      var k := 0;
      while k < |updated| && updated[k].id != id
        invariant 0 <= k <= |updated|
        invariant forall j :: 0 <= j < k ==> updated[j].id != id
      {
        k := k + 1;
      }
      var index := if k < |updated| then k else -1;
      assert index == FindIndex(updated, id);
      if index > 0 {
        var chat := updated[index];
        updated := updated[..index] + updated[index + 1..];
        chat := chat.(updatedAt := now);
        updated := [chat] + updated;
      }
      chats := updated;
    }

    /** One pass of the reader loop: every `data: ` line of the chunk whose
        JSON has a non-empty `content` appends it to the messages named `id`. */
    method ConsumeChunk(id: string, chunk: string)
      modifies this
      ensures messages == AppendText(old(messages), id, ChunkText(chunk))
      ensures chats == old(chats) && activeChat == old(activeChat)
      ensures isLoading == old(isLoading) && loadingChats == old(loadingChats)
    {
      AppendTextEmpty(messages, id);
      var lines := Split(chunk, '\n');
      for j := 0 to |lines|
        invariant messages == AppendText(old(messages), id, LinesText(lines[..j]))
        invariant chats == old(chats) && activeChat == old(activeChat)
        invariant isLoading == old(isLoading) && loadingChats == old(loadingChats)
      {
        var line := lines[j];
        ConcatMapAppend(lines[..j], line, LineText);
        assert lines[..j + 1] == lines[..j] + [line];
        var text := LineText(line);
        if text != "" {
          AppendTextTwice(old(messages), id, LinesText(lines[..j]), text);
          messages := AppendText(messages, id, text);
        } else {
          assert LinesText(lines[..j]) + text == LinesText(lines[..j]);
        }
      }
      assert lines[..|lines|] == lines;
    }

    /** The reader loop, chunk after chunk until the body ends. */
    method ConsumeStream(id: string, chunks: seq<string>)
      modifies this
      ensures messages == AppendText(old(messages), id, StreamText(chunks))
      ensures chats == old(chats) && activeChat == old(activeChat)
      ensures isLoading == old(isLoading) && loadingChats == old(loadingChats)
    {
      AppendTextEmpty(messages, id);
      var n := 0;
      while n < |chunks|
        invariant 0 <= n <= |chunks|
        invariant messages == AppendText(old(messages), id, StreamText(chunks[..n]))
        invariant chats == old(chats) && activeChat == old(activeChat)
        invariant isLoading == old(isLoading) && loadingChats == old(loadingChats)
      {
        ghost var sofar := StreamText(chunks[..n]);
        ConsumeChunk(id, chunks[n]);
        assert chunks[..n + 1] == chunks[..n] + [chunks[n]];
        ConcatMapAppend(chunks[..n], chunks[n], ChunkText);
        AppendTextTwice(old(messages), id, sofar, ChunkText(chunks[n]));
        n := n + 1;
      }
      assert chunks[..n] == chunks;
    }

    /** The mock typing loop: the messages named `id` show one more
        character of `text` at each step; `history` holds the message list
        after each step. */
    method TypeOut(id: string, text: string) returns (ghost history: seq<seq<Message>>)
      modifies this
      ensures text != "" ==> messages == SetText(old(messages), id, text)
      ensures text == "" ==> messages == old(messages)
      ensures |history| == |text|
      ensures forall i :: 0 <= i < |history| ==> history[i] == SetText(old(messages), id, text[..i + 1])
      ensures chats == old(chats) && activeChat == old(activeChat)
      ensures isLoading == old(isLoading) && loadingChats == old(loadingChats)
    {
      var current := "";
      history := [];
      for i := 0 to |text|
        invariant current == text[..i]
        invariant i == 0 ==> messages == old(messages)
        invariant i > 0 ==> messages == SetText(old(messages), id, current)
        invariant |history| == i
        invariant forall j :: 0 <= j < i ==> history[j] == SetText(old(messages), id, text[..j + 1])
        invariant chats == old(chats) && activeChat == old(activeChat)
        invariant isLoading == old(isLoading) && loadingChats == old(loadingChats)
      {
        current := current + [text[i]];
        assert current == text[..i + 1];
        if i > 0 {
          SetTextTwice(old(messages), id, text[..i], current);
        }
        messages := SetText(messages, id, current);
        history := history + [messages];
      }
      assert text[..|text|] == text;
    }

    /** The catch branch: a new empty assistant message, typed out, then the
        chat moves to the top. */
    method FallBack(chatId: string, clock: Clock)
      modifies this
      ensures messages == MockTyped(old(messages), clock.fellBack)
      ensures chats == Reordered(old(chats), chatId, clock.reordered)
      ensures !isLoading && activeChat == old(activeChat) && loadingChats == old(loadingChats)
    {
      var assistant := Placeholder(clock.fellBack);
      messages := messages + [assistant];
      isLoading := false;
      MockReplyNonEmpty();
      var _ := TypeOut(assistant.id, MockReply);
      UpdateChatOrder(chatId, clock.reordered);
    }

    /** `handleSendMessage`: nothing without an active chat; otherwise the
        user's message first, then the streamed answer or the fallback, and
        the chat moves to the top unless the reply had no body. */
    method SendMessage(content: string, reply: StreamReply, clock: Clock)
      modifies this
      ensures !Truthy(old(activeChat)) ==>
        messages == old(messages) && chats == old(chats) && isLoading == old(isLoading)
      ensures Truthy(old(activeChat)) ==>
        && messages == SentMessages(old(messages), content, reply, clock)
        && chats == (if reply.NoBody? then old(chats) else Reordered(old(chats), old(activeChat).value, clock.reordered))
        && !isLoading
      ensures activeChat == old(activeChat) && loadingChats == old(loadingChats)
    {
      if !Truthy(activeChat) {
        return;
      }
      var chatId := activeChat.value;
      messages := messages + [UserMessage(content, clock.sent)];
      isLoading := true;
      match reply {
        case Unavailable =>
          FallBack(chatId, clock);
        case NoBody =>
          messages := messages + [Placeholder(clock.answered)];
          isLoading := false;
        case Body(chunks, interrupted) =>
          var assistant := Placeholder(clock.answered);
          messages := messages + [assistant];
          isLoading := false;
          ConsumeStream(assistant.id, chunks);
          if interrupted {
            FallBack(chatId, clock);
          } else {
            UpdateChatOrder(chatId, clock.reordered);
          }
      }
    }
  }
}
