/** The persistence adapter (`db`): the DynamoDB-backed operations, the mock
    operations used when the store is not configured, and the choice between
    the two.

    The store is abstract. Every request the live adapter sends is logged
    together with whether the store accepted it; what a read returns is
    supplied by the caller; `Effect` gives what the accepted writes of a log
    do to the three tables. Times are milliseconds since the epoch, and the
    random id suffixes are parameters. */
module Persistence {
  import opened Base

  const DefaultTitle: string := "New conversation"
  const ChatIdPrefix: string := "chat_"
  const MessageIdPrefix: string := "msg_"
  const MockChatIdPrefix: string := "mock_chat_"
  const MockMessageIdPrefix: string := "mock_msg_"
  const MockChatId: string := "mock_chat_1"
  const MockChatTitle: string := "Sample conversation"
  const MockMessageId: string := "mock_msg_1"
  const Greeting: string := "Hello! How can I help you today?"
  const MockEmail: string := "test@example.com"
  const MockName: string := "Test User"

  /** The argument of `createUser`: a user before the store stamps it. */
  datatype Profile = Profile(id: string, email: string, name: string, picture: Option<string>)

  datatype UserItem = UserItem(id: string, email: string, name: string, picture: Option<string>,
                               createdAt: nat, lastLoginAt: nat)

  /** A chat as the adapter hands it out. Its id is absent only when it was
      read from a record that carries neither key. */
  datatype Chat = Chat(id: Option<string>, userId: string, title: string, createdAt: nat, updatedAt: nat)

  /** A record of the chats table: `chatId` is the partition key; `id` is the
      older key, still written for records read by older code. */
  datatype ChatRecord = ChatRecord(chatId: Option<string>, id: Option<string>, userId: string,
                                   title: string, createdAt: nat, updatedAt: nat)

  datatype Message = Message(id: string, chatId: string, role: Role, content: string, timestamp: nat)

  /** How an adapter operation ends: with a value, or by throwing. */
  datatype Outcome<+T> = Returned(value: T) | Threw

  /** The store's answer to a read. */
  datatype Reply<+T> = Answered(items: T) | Failed

  /** One request to the store (`docClient.send(...)`). */
  datatype Command =
    | PutUser(user: UserItem)
    | GetUserItem(userId: string)
    | TouchLogin(userId: string, at: nat)
    | PutChat(key: string, record: ChatRecord)
    | ScanChats(owner: string)
    | TouchChat(chatId: string, at: nat)
    | DeleteChatItem(chatId: string)
    | PutMessage(message: Message)
    | QueryMessages(chatId: string)
    | DeleteMessageItem(messageId: string)

  datatype Request = Request(command: Command, accepted: bool)

  datatype Tables = Tables(users: map<string, UserItem>, chats: map<string, ChatRecord>,
                           messages: map<string, Message>)

  /** What an accepted command does to the tables; reads change nothing. */
  function Apply(t: Tables, c: Command): Tables {
    match c
    case PutUser(u) => t.(users := t.users[u.id := u])
    case TouchLogin(id, at) =>
      if id in t.users then t.(users := t.users[id := t.users[id].(lastLoginAt := at)]) else t
    case PutChat(key, r) => t.(chats := t.chats[key := r])
    case TouchChat(id, at) =>
      if id in t.chats then t.(chats := t.chats[id := t.chats[id].(updatedAt := at)]) else t
    case DeleteChatItem(id) => t.(chats := t.chats - {id})
    case PutMessage(m) => t.(messages := t.messages[m.id := m])
    case DeleteMessageItem(id) => t.(messages := t.messages - {id})
    case _ => t
  }

  /** The tables after the accepted requests of `log`, in order. */
  function Effect(t: Tables, log: seq<Request>): Tables {
    if log == [] then t
    else
      var earlier := Effect(t, log[..|log| - 1]);
      var last := log[|log| - 1];
      if last.accepted then Apply(earlier, last.command) else earlier
  }

  lemma EffectAppend(t: Tables, log: seq<Request>, r: Request)
    ensures Effect(t, log + [r]) == if r.accepted then Apply(Effect(t, log), r.command) else Effect(t, log)
  {
    assert (log + [r])[..|log|] == log;
  }

  /** A refused request changes nothing. */
  lemma RefusedChangesNothing(t: Tables, log: seq<Request>, c: Command)
    ensures Effect(t, log + [Request(c, false)]) == Effect(t, log)
  {
    EffectAppend(t, log, Request(c, false));
  }

  // ----- records -----------------------------------------------------------

  function NewUserItem(p: Profile, now: nat): UserItem {
    UserItem(p.id, p.email, p.name, p.picture, now, now)
  }

  /** A fresh chat: the given title, or the default one when the title is
      absent or empty. */
  function NewChat(id: string, userId: string, title: Option<string>, now: nat): (c: Chat)
    ensures c.id == Some(id) && c.userId == userId && c.createdAt == now && c.updatedAt == now
    ensures Truthy(title) ==> c.title == title.value
    ensures !Truthy(title) ==> c.title == DefaultTitle
  {
    Chat(Some(id), userId, OrElse(title, DefaultTitle), now, now)
  }

  function LiveChatId(now: nat, suffix: string): (id: string)
    ensures ChatIdPrefix <= id
  {
    ChatIdPrefix + NatToString(now) + "_" + suffix
  }

  function LiveMessageId(now: nat, suffix: string): (id: string)
    ensures MessageIdPrefix <= id
  {
    MessageIdPrefix + NatToString(now) + "_" + suffix
  }

  /** The record `createChat` writes: the chat's id under both keys. */
  function RecordOf(c: Chat): ChatRecord {
    ChatRecord(c.id, c.id, c.userId, c.title, c.createdAt, c.updatedAt)
  }

  /** `item.chatId || item.id`. */
  function ChatIdOf(r: ChatRecord): (id: Option<string>)
    ensures Truthy(r.chatId) ==> id == r.chatId
    ensures !Truthy(r.chatId) ==> id == r.id
  {
    if Truthy(r.chatId) then r.chatId else r.id
  }

  function ChatOf(r: ChatRecord): Chat {
    Chat(ChatIdOf(r), r.userId, r.title, r.createdAt, r.updatedAt)
  }

  /** Reading back the record of a chat gives the chat. */
  lemma RecordRoundTrip(c: Chat)
    ensures ChatOf(RecordOf(c)) == c
  {
  }

  function ChatsOf(items: seq<ChatRecord>): (chats: seq<Chat>)
    ensures |chats| == |items|
  {
    seq(|items|, i requires 0 <= i < |items| => ChatOf(items[i]))
  }

  function UpdatedAt(c: Chat): int {
    c.updatedAt
  }

  /** The chats of a successful scan: mapped, then most recently updated first. */
  function UserChats(items: seq<ChatRecord>): seq<Chat> {
    SortDesc(ChatsOf(items), UpdatedAt)
  }

  /** The listing holds each scanned record exactly once, under
      `chatId || id`, most recently updated first. */
  lemma UserChatsProps(items: seq<ChatRecord>)
    ensures var r := UserChats(items);
      && |r| == |items|
      && multiset(r) == multiset(ChatsOf(items))
      && (forall i, j :: 0 <= i < j < |r| ==> r[i].updatedAt >= r[j].updatedAt)
      && (forall i :: 0 <= i < |r| ==> exists j :: 0 <= j < |items| && r[i] == ChatOf(items[j]))
  {
    var r := UserChats(items);
    SortDescProps(ChatsOf(items), UpdatedAt);
    assert |r| == |multiset(r)| == |ChatsOf(items)|;
    forall i, j | 0 <= i < j < |r| ensures r[i].updatedAt >= r[j].updatedAt {
      assert UpdatedAt(r[i]) >= UpdatedAt(r[j]);
    }
    forall i | 0 <= i < |r| ensures exists j :: 0 <= j < |items| && r[i] == ChatOf(items[j]) {
      assert r[i] in multiset(ChatsOf(items));
      var j :| 0 <= j < |items| && ChatsOf(items)[j] == r[i];
    }
  }

  /** A chat whose record a scan returns is listed as it was created. */
  lemma CreatedChatListed(c: Chat, items: seq<ChatRecord>)
    requires RecordOf(c) in items
    ensures c in UserChats(items)
  {
    var j :| 0 <= j < |items| && items[j] == RecordOf(c);
    assert ChatsOf(items)[j] == c;
    SortDescProps(ChatsOf(items), UpdatedAt);
    assert c in multiset(UserChats(items));
  }

  /** The one chat listed when the scan fails. */
  function MockChat(userId: string, now: nat): Chat {
    Chat(Some(MockChatId), userId, MockChatTitle, now, now)
  }

  function Stamp(m: NewMessage, id: string, now: nat): Message {
    Message(id, m.chatId, m.role, m.content, now)
  }

  /** The one message listed when the query fails. */
  function MockGreeting(chatId: string, now: nat): Message {
    Message(MockMessageId, chatId, Assistant, Greeting, now)
  }

  /** `getChatMessages`: the query's messages, or the greeting when it fails. */
  function ChatMessages(chatId: string, now: nat, answer: Reply<seq<Message>>): (ms: seq<Message>)
    ensures answer.Failed? ==> |ms| == 1 && ms[0].id == MockMessageId && ms[0].chatId == chatId
                               && ms[0].role == Assistant && ms[0].content == Greeting
    ensures answer.Answered? ==> ms == answer.items
  {
    match answer
    case Answered(items) => items
    case Failed => [MockGreeting(chatId, now)]
  }

  // ----- the mock adapter ----------------------------------------------------

  function MockCreateUser(p: Profile, now: nat): (u: UserItem)
    ensures u.id == p.id && u.email == p.email && u.name == p.name && u.picture == p.picture
    ensures u.createdAt == now && u.lastLoginAt == now
  {
    NewUserItem(p, now)
  }

  /** Every id names the test user. */
  function MockGetUser(id: string, now: nat): (u: Option<UserItem>)
    ensures u.Some? && u.value.id == id && u.value.email == MockEmail && u.value.name == MockName
  {
    Some(UserItem(id, MockEmail, MockName, None, now, now))
  }

  function MockCreateChat(userId: string, title: Option<string>, now: nat): (c: Chat)
    ensures c.id.Some? && MockChatIdPrefix <= c.id.value && c.userId == userId
    ensures c.title == if Truthy(title) then title.value else DefaultTitle
  {
    NewChat(MockChatIdPrefix + NatToString(now), userId, title, now)
  }

  function MockUserChats(userId: string, now: nat): (chats: seq<Chat>)
    ensures |chats| == 1 && chats[0].id == Some(MockChatId) && chats[0].userId == userId
    ensures chats[0].title == MockChatTitle
  {
    [MockChat(userId, now)]
  }

  /** The input's fields, plus a mock id and the time. */
  function MockCreateMessage(m: NewMessage, now: nat): (r: Message)
    ensures r.chatId == m.chatId && r.role == m.role && r.content == m.content
    ensures MockMessageIdPrefix <= r.id && r.timestamp == now
  {
    Stamp(m, MockMessageIdPrefix + NatToString(now), now)
  }

  function MockChatMessages(chatId: string, now: nat): (ms: seq<Message>)
    ensures ms == ChatMessages(chatId, now, Failed)
  {
    [MockGreeting(chatId, now)]
  }

  // ----- choosing an adapter -------------------------------------------------

  datatype Adapter = Live | Mock

  /** The live adapter needs both credentials to be set and non-empty. */
  function SelectAdapter(accessKeyId: Option<string>, secretAccessKey: Option<string>): (a: Adapter)
    ensures a == Live <==>
      (accessKeyId.Some? && accessKeyId.value != "" && secretAccessKey.Some? && secretAccessKey.value != "")
  {
    if Truthy(accessKeyId) && Truthy(secretAccessKey) then Live else Mock
  }

  // ----- deleting a chat -----------------------------------------------------

  /** The first `k` message deletions `deleteChat` sends. */
  function DeleteLog(ms: seq<Message>, ok: nat -> bool, k: nat): (log: seq<Request>)
    requires k <= |ms|
    ensures |log| == k
  {
    seq(k, i requires 0 <= i < k => Request(DeleteMessageItem(ms[i].id), ok(i)))
  }

  lemma DeleteLogNext(ms: seq<Message>, ok: nat -> bool, k: nat)
    requires k < |ms|
    ensures DeleteLog(ms, ok, k + 1) == DeleteLog(ms, ok, k) + [Request(DeleteMessageItem(ms[k].id), ok(k))]
  {
  }

  predicate AllAccepted(ok: nat -> bool, n: nat) {
    forall j :: 0 <= j < n ==> ok(j)
  }

  /** How many of the deletions from `i` on are sent: up to and including
      the first one the store refuses. */
  function Attempts(n: nat, ok: nat -> bool, i: nat): (k: nat)
    requires i <= n
    ensures i <= k <= n
    ensures forall j :: i <= j < k - 1 ==> ok(j)
    ensures k < n ==> k > i && !ok(k - 1)
    ensures k == n ==> forall j :: i <= j < n - 1 ==> ok(j)
    decreases n - i
  {
    if i == n then n else if !ok(i) then i + 1 else Attempts(n, ok, i + 1)
  }

  function MessageIds(ms: seq<Message>, k: nat): set<string>
    requires k <= |ms|
  {
    set i | 0 <= i < k :: ms[i].id
  }

  lemma SeqAssoc<T>(a: seq<T>, b: seq<T>, c: seq<T>)
    ensures a + (b + c) == (a + b) + c
  {
  }

  /** An accepted message deletion removes that message and nothing else. */
  lemma DeleteMessageEffect(t: Tables, log: seq<Request>, id: string)
    ensures var e := Effect(t, log);
      Effect(t, log + [Request(DeleteMessageItem(id), true)]) == e.(messages := e.messages - {id})
  {
    EffectAppend(t, log, Request(DeleteMessageItem(id), true));
  }

  lemma MessageIdsNext(ms: seq<Message>, k: nat)
    requires k < |ms|
    ensures MessageIds(ms, k + 1) == MessageIds(ms, k) + {ms[k].id}
  {
  }

  /** Accepted deletions of messages remove exactly those messages. */
  lemma {:induction false} DeleteLogEffect(t: Tables, log: seq<Request>, ms: seq<Message>, ok: nat -> bool, k: nat)
    requires k <= |ms|
    requires AllAccepted(ok, k)
    ensures Effect(t, log + DeleteLog(ms, ok, k))
         == Effect(t, log).(messages := Effect(t, log).messages - MessageIds(ms, k))
  {
    if k == 0 {
      assert log + DeleteLog(ms, ok, 0) == log;
      assert MessageIds(ms, 0) == {};
    } else {
      var prefix := log + DeleteLog(ms, ok, k - 1);
      DeleteLogNext(ms, ok, k - 1);
      assert log + DeleteLog(ms, ok, k) == prefix + [Request(DeleteMessageItem(ms[k - 1].id), true)];
      DeleteLogEffect(t, log, ms, ok, k - 1);
      DeleteMessageEffect(t, prefix, ms[k - 1].id);
      MessageIdsNext(ms, k - 1);
    }
  }

  /** The requests of a successful live `deleteChat`. */
  function DeleteChatLog(chatId: string, queried: bool, ms: seq<Message>, ok: nat -> bool): seq<Request> {
    [Request(DeleteChatItem(chatId), true), Request(QueryMessages(chatId), queried)] + DeleteLog(ms, ok, |ms|)
  }

  /** Deleting the chat record removes it; the query that follows changes nothing. */
  lemma DeleteChatHeadEffect(t: Tables, before: seq<Request>, chatId: string, queried: bool)
    ensures var e := Effect(t, before);
      Effect(t, before + [Request(DeleteChatItem(chatId), true), Request(QueryMessages(chatId), queried)])
        == e.(chats := e.chats - {chatId})
  {
    var del := Request(DeleteChatItem(chatId), true);
    var query := Request(QueryMessages(chatId), queried);
    EffectAppend(t, before, del);
    EffectAppend(t, before + [del], query);
    assert before + [del, query] == before + [del] + [query];
  }

  /** After a successful delete the chat is gone, and so is every message the
      query listed; nothing else changes. */
  lemma DeletedChatGone(t: Tables, before: seq<Request>, chatId: string, queried: bool,
                        ms: seq<Message>, ok: nat -> bool)
    requires AllAccepted(ok, |ms|)
    ensures var e := Effect(t, before);
      Effect(t, before + DeleteChatLog(chatId, queried, ms, ok))
        == e.(chats := e.chats - {chatId}, messages := e.messages - MessageIds(ms, |ms|))
  {
    var head := before + [Request(DeleteChatItem(chatId), true), Request(QueryMessages(chatId), queried)];
    DeleteChatHeadEffect(t, before, chatId, queried);
    DeleteLogEffect(t, head, ms, ok, |ms|);
    SeqAssoc(before, [Request(DeleteChatItem(chatId), true), Request(QueryMessages(chatId), queried)], DeleteLog(ms, ok, |ms|));
  }

  /** When the message query fails, `deleteChat` still succeeds, but it deletes
      only the placeholder greeting's id: every other message survives. */
  lemma DeleteWithFailedQueryKeepsMessages(t: Tables, before: seq<Request>, chatId: string, now: nat,
                                           ok: nat -> bool, id: string)
    requires ok(0)
    requires id in Effect(t, before).messages && id != MockMessageId
    ensures id in Effect(t, before + DeleteChatLog(chatId, false, ChatMessages(chatId, now, Failed), ok)).messages
  {
    var ms := ChatMessages(chatId, now, Failed);
    DeletedChatGone(t, before, chatId, false, ms, ok);
    assert MessageIds(ms, 1) == {MockMessageId};
  }

  /** The two writes of a successful `createMessage` store the message and set
      its chat's `updatedAt` to the message's timestamp; other chats keep theirs. */
  lemma MessageTouchesChat(t: Tables, before: seq<Request>, m: Message)
    requires m.chatId in Effect(t, before).chats
    ensures var after := Effect(t, before + [Request(PutMessage(m), true), Request(TouchChat(m.chatId, m.timestamp), true)]);
      && after.messages == Effect(t, before).messages[m.id := m]
      && after.chats == Effect(t, before).chats[m.chatId := Effect(t, before).chats[m.chatId].(updatedAt := m.timestamp)]
      && after.users == Effect(t, before).users
  {
    var put := Request(PutMessage(m), true);
    assert before + [put, Request(TouchChat(m.chatId, m.timestamp), true)]
        == (before + [put]) + [Request(TouchChat(m.chatId, m.timestamp), true)];
    EffectAppend(t, before, put);
    EffectAppend(t, before + [put], Request(TouchChat(m.chatId, m.timestamp), true));
  }

  /** After a successful `createChat`, the chats table holds the chat's
      record under its id, which reads back as the chat. */
  lemma CreatedChatStored(t: Tables, before: seq<Request>, c: Chat)
    requires c.id.Some?
    ensures var after := Effect(t, before + [Request(PutChat(c.id.value, RecordOf(c)), true)]);
      c.id.value in after.chats && ChatOf(after.chats[c.id.value]) == c
  {
    EffectAppend(t, before, Request(PutChat(c.id.value, RecordOf(c)), true));
  }

  // ----- the adapter -----------------------------------------------------------

  /** `db`: the adapter chosen from the environment, and the requests the live
      one has sent. The mock adapter sends nothing. */
  class Db {
    const adapter: Adapter
    var sent: seq<Request>

    constructor(accessKeyId: Option<string>, secretAccessKey: Option<string>)
      ensures adapter == SelectAdapter(accessKeyId, secretAccessKey) && sent == []
    {
      adapter := SelectAdapter(accessKeyId, secretAccessKey);
      sent := [];
    }

    /** `createUser`: a refused write is rethrown. */
    method CreateUser(p: Profile, now: nat, accepted: bool) returns (out: Outcome<UserItem>)
      modifies this
      ensures adapter == Mock ==> sent == old(sent) && out == Returned(MockCreateUser(p, now))
      ensures adapter == Live ==> sent == old(sent) + [Request(PutUser(NewUserItem(p, now)), accepted)]
      ensures adapter == Live ==> out == if accepted then Returned(NewUserItem(p, now)) else Threw
    {
      if adapter == Mock {
        return Returned(MockCreateUser(p, now));
      }
      sent := sent + [Request(PutUser(NewUserItem(p, now)), accepted)];
      out := if accepted then Returned(NewUserItem(p, now)) else Threw;
    }

    /** `getUser`: a failed read yields no user rather than an error. */
    method GetUser(id: string, now: nat, answer: Reply<Option<UserItem>>) returns (user: Option<UserItem>)
      modifies this
      ensures adapter == Mock ==> sent == old(sent) && user == MockGetUser(id, now)
      ensures adapter == Live ==> sent == old(sent) + [Request(GetUserItem(id), answer.Answered?)]
      ensures adapter == Live ==> user == if answer.Answered? then answer.items else None
    {
      if adapter == Mock {
        return MockGetUser(id, now);
      }
      sent := sent + [Request(GetUserItem(id), answer.Answered?)];
      user := if answer.Answered? then answer.items else None;
    }

    /** `updateUserLastLogin`: a refused write is swallowed. */
    method UpdateUserLastLogin(id: string, now: nat, accepted: bool) returns (out: Outcome<()>)
      modifies this
      ensures out == Returned(())
      ensures adapter == Mock ==> sent == old(sent)
      ensures adapter == Live ==> sent == old(sent) + [Request(TouchLogin(id, now), accepted)]
    {
      if adapter == Live {
        sent := sent + [Request(TouchLogin(id, now), accepted)];
      }
      out := Returned(());
    }

    /** `createChat`: writes the chat's record, keyed by its new id; a refused
        write is rethrown. */
    method CreateChat(userId: string, title: Option<string>, now: nat, suffix: string, accepted: bool)
      returns (out: Outcome<Chat>)
      modifies this
      ensures adapter == Mock ==> sent == old(sent) && out == Returned(MockCreateChat(userId, title, now))
      ensures adapter == Live ==>
        var c := NewChat(LiveChatId(now, suffix), userId, title, now);
        && sent == old(sent) + [Request(PutChat(c.id.value, RecordOf(c)), accepted)]
        && out == if accepted then Returned(c) else Threw
    {
      if adapter == Mock {
        return Returned(MockCreateChat(userId, title, now));
      }
      var c := NewChat(LiveChatId(now, suffix), userId, title, now);
      sent := sent + [Request(PutChat(c.id.value, RecordOf(c)), accepted)];
      out := if accepted then Returned(c) else Threw;
    }

    /** `getUserChats`: the scanned chats most recently updated first, or the
        mock chat when the scan fails. */
    method GetUserChats(userId: string, now: nat, answer: Reply<seq<ChatRecord>>) returns (chats: seq<Chat>)
      modifies this
      ensures adapter == Mock ==> sent == old(sent) && chats == MockUserChats(userId, now)
      ensures adapter == Live ==> sent == old(sent) + [Request(ScanChats(userId), answer.Answered?)]
      ensures adapter == Live ==>
        chats == if answer.Answered? then UserChats(answer.items) else MockUserChats(userId, now)
    {
      if adapter == Mock {
        return MockUserChats(userId, now);
      }
      sent := sent + [Request(ScanChats(userId), answer.Answered?)];
      match answer
      case Answered(items) => chats := UserChats(items);
      case Failed => chats := MockUserChats(userId, now);
    }

    /** `createMessage`: the message is returned whatever the store does; the
        chat's `updatedAt` is written only after the message was. */
    method CreateMessage(m: NewMessage, now: nat, suffix: string, putAccepted: bool, touchAccepted: bool)
      returns (out: Message)
      modifies this
      ensures out.chatId == m.chatId && out.role == m.role && out.content == m.content && out.timestamp == now
      ensures adapter == Mock ==> sent == old(sent) && out == MockCreateMessage(m, now)
      ensures adapter == Live ==> out.id == LiveMessageId(now, suffix)
      ensures adapter == Live ==>
        sent == old(sent) + [Request(PutMessage(out), putAccepted)]
                + (if putAccepted then [Request(TouchChat(m.chatId, now), touchAccepted)] else [])
    {
      if adapter == Mock {
        return MockCreateMessage(m, now);
      }
      out := Stamp(m, LiveMessageId(now, suffix), now);
      sent := sent + [Request(PutMessage(out), putAccepted)];
      if putAccepted {
        sent := sent + [Request(TouchChat(m.chatId, out.timestamp), touchAccepted)];
      }
    }

    /** `getChatMessages`: the queried messages, or the greeting when the
        query fails. */
    method GetChatMessages(chatId: string, now: nat, answer: Reply<seq<Message>>) returns (ms: seq<Message>)
      modifies this
      ensures adapter == Mock ==> sent == old(sent) && ms == MockChatMessages(chatId, now)
      ensures adapter == Live ==> sent == old(sent) + [Request(QueryMessages(chatId), answer.Answered?)]
      ensures adapter == Live ==> ms == ChatMessages(chatId, now, answer)
    {
      if adapter == Mock {
        return MockChatMessages(chatId, now);
      }
      sent := sent + [Request(QueryMessages(chatId), answer.Answered?)];
      ms := ChatMessages(chatId, now, answer);
    }

    /** The loop of `deleteChat`: delete each message in turn, stopping at the
        first deletion the store refuses. */
    method DeleteMessages(ms: seq<Message>, ok: nat -> bool) returns (allDeleted: bool)
      modifies this
      ensures allDeleted == AllAccepted(ok, |ms|)
      ensures sent == old(sent) + DeleteLog(ms, ok, Attempts(|ms|, ok, 0))
    {
      var i := 0;
      while i < |ms|
        invariant 0 <= i <= |ms|
        invariant AllAccepted(ok, i)
        invariant Attempts(|ms|, ok, 0) == Attempts(|ms|, ok, i)
        invariant sent == old(sent) + DeleteLog(ms, ok, i)
      {
        DeleteLogNext(ms, ok, i);
        sent := sent + [Request(DeleteMessageItem(ms[i].id), ok(i))];
        if !ok(i) {
          assert Attempts(|ms|, ok, i) == i + 1;
          return false;
        }
        i := i + 1;
      }
      allDeleted := true;
    }

    /** `deleteChat`: delete the chat, then each message of the chat in turn;
        the first refused deletion is rethrown. `ok(i)` is whether the store
        accepts the i-th message deletion. */
    method DeleteChat(chatId: string, now: nat, chatAccepted: bool, answer: Reply<seq<Message>>, ok: nat -> bool)
      returns (out: Outcome<()>)
      modifies this
      ensures adapter == Mock ==> sent == old(sent) && out == Returned(())
      ensures adapter == Live ==>
        var ms := ChatMessages(chatId, now, answer);
        && out == (if chatAccepted && AllAccepted(ok, |ms|) then Returned(()) else Threw)
        && sent == old(sent) + [Request(DeleteChatItem(chatId), chatAccepted)]
             + (if chatAccepted
                then [Request(QueryMessages(chatId), answer.Answered?)] + DeleteLog(ms, ok, Attempts(|ms|, ok, 0))
                else [])
      ensures adapter == Live && chatAccepted && AllAccepted(ok, |ChatMessages(chatId, now, answer)|) ==>
        sent == old(sent) + DeleteChatLog(chatId, answer.Answered?, ChatMessages(chatId, now, answer), ok)
    {
      if adapter == Mock {
        return Returned(());
      }
      sent := sent + [Request(DeleteChatItem(chatId), chatAccepted)];
      if !chatAccepted {
        return Threw;
      }
      var ms := GetChatMessages(chatId, now, answer);
      var allDeleted := DeleteMessages(ms, ok);
      out := if allDeleted then Returned(()) else Threw;
    }
  }
}
