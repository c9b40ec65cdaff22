/** The server side of one chat turn (`POST /api/chat/stream`): save the user's
    message, relay the provider's fragments to the client one frame each, close
    with a single done frame, then save the assistant's message.

    What the handler does to the outside world (calls to the message store and
    writes to the response) is recorded, in order, as a sequence of events. */
module StreamRelay {
  import opened Base
  import opened Frames

  datatype Event =
    | Save(message: NewMessage)   // db.createMessage(message)
    | Write(payload: Payload)     // res.write(Frame(payload))
    | End                         // res.end()

  /** What the completion provider does during the turn. `NoClient`: no API key
      was configured. `Live(deltas, failed)`: the stream delivered one chunk
      per entry of `deltas` (the chunk's delta content, "" when it has none),
      and then either ended (`failed == false`) or threw (`failed == true`;
      a failure of the initial create call is `Live([], true)`). */
  datatype Provider = NoClient | Live(deltas: seq<string>, failed: bool)

  const DefaultChatId: string := "default-chat"

  /** `chatId || 'default-chat'`. */
  function TargetChat(chatId: Option<string>): string {
    OrElse(chatId, DefaultChatId)
  }

  const NoClientMockPrefix: string := "Mock response to: \""
  const QuotaMockPrefix: string := "[Mock due to OpenAI quota exceeded] Response to: \""

  function NoClientMock(message: string): string {
    NoClientMockPrefix + message + "\""
  }

  function QuotaMock(message: string): string {
    QuotaMockPrefix + message + "\""
  }

  predicate NonEmpty(s: string) {
    s != ""
  }

  /** The deltas the live loop forwards: the non-empty ones, in order. */
  function Forwarded(deltas: seq<string>): seq<string> {
    Filter(deltas, NonEmpty)
  }

  /** The payloads written before the done frame. */
  function StreamedPayloads(message: string, provider: Provider): seq<Payload> {
    match provider
    case NoClient => CharPayloads(NoClientMock(message))
    case Live(deltas, failed) =>
      ContentPayloads(Forwarded(deltas)) + (if failed then CharPayloads(QuotaMock(message)) else [])
  }

  /** The content of the assistant message the handler saves. */
  function AssistantText(message: string, provider: Provider): string {
    match provider
    case NoClient => NoClientMock(message)
    case Live(deltas, failed) => if failed then QuotaMock(message) else Concat(Forwarded(deltas))
  }

  /** One `res.write` per payload, in order. */
  function Writes(ps: seq<Payload>): (es: seq<Event>)
    ensures |es| == |ps|
    ensures forall i :: 0 <= i < |ps| ==> es[i] == Write(ps[i])
  {
    seq(|ps|, i requires 0 <= i < |ps| => Write(ps[i]))
  }

  /** Every payload the handler writes, ending with the terminal signal. */
  function TurnPayloads(message: string, provider: Provider): seq<Payload> {
    StreamedPayloads(message, provider) + [Done]
  }

  /** The complete, ordered effect of one turn. */
  function TurnEvents(message: string, chatId: Option<string>, provider: Provider): seq<Event> {
    var target := TargetChat(chatId);
    [Save(NewMessage(target, User, message))]
    + Writes(TurnPayloads(message, provider))
    + [End, Save(NewMessage(target, Assistant, AssistantText(message, provider)))]
  }

  /** The request's observable effects so far. */
  class Exchange {
    var events: seq<Event>

    constructor ()
      ensures events == []
    {
      events := [];
    }

    method Record(e: Event)
      modifies this
      ensures events == old(events) + [e]
    {
      events := events + [e];
    }
  }

  /** One frame per character of `text` (the mock loops of the handler). */
  method WriteChars(x: Exchange, text: string)
    modifies x
    ensures x.events == old(x.events) + Writes(CharPayloads(text))
  {
    for i := 0 to |text|
      invariant x.events == old(x.events) + Writes(CharPayloads(text[..i]))
    {
      x.Record(Write(Content([text[i]])));
      assert CharPayloads(text[..i + 1]) == CharPayloads(text[..i]) + [Content([text[i]])];
    }
    assert text[..|text|] == text;
  }

  lemma WritesJoin(a: seq<Payload>, b: seq<Payload>)
    ensures Writes(a + b) == Writes(a) + Writes(b)
  {
  }

  lemma WritesContentAppend(fwd: seq<string>, content: string)
    ensures Writes(ContentPayloads(fwd + [content]))
         == Writes(ContentPayloads(fwd)) + [Write(Content(content))]
  {
    assert ContentPayloads(fwd + [content]) == ContentPayloads(fwd) + [Content(content)];
    WritesJoin(ContentPayloads(fwd), [Content(content)]);
  }

  /** The live loop: forward each non-empty delta as it arrives and
      accumulate what was forwarded. */
  method RelayDeltas(x: Exchange, deltas: seq<string>) returns (assistantResponse: string)
    modifies x
    ensures assistantResponse == Concat(Forwarded(deltas))
    ensures x.events == old(x.events) + Writes(ContentPayloads(Forwarded(deltas)))
  {
    assistantResponse := "";
    ghost var fwd: seq<string> := [];
    var i := 0;
    while i < |deltas|
      invariant 0 <= i <= |deltas|
      invariant fwd == Forwarded(deltas[..i])
      invariant assistantResponse == Concat(fwd)
      invariant x.events == old(x.events) + Writes(ContentPayloads(fwd))
    {
      var content := deltas[i];
      FilterAppend(deltas[..i], content, NonEmpty);
      assert deltas[..i + 1] == deltas[..i] + [content];
      if content != "" {
        ConcatAppend(fwd, content);
        WritesContentAppend(fwd, content);
        assistantResponse := assistantResponse + content;
        x.Record(Write(Content(content)));
        fwd := fwd + [content];
      }
      i := i + 1;
    }
    assert deltas[..i] == deltas;
  }

  /** Done frame, end of response, then the assistant save. */
  method Finish(x: Exchange, target: string, text: string)
    modifies x
    ensures x.events == old(x.events) + [Write(Done), End, Save(NewMessage(target, Assistant, text))]
  {
    x.Record(Write(Done));
    x.Record(End);
    x.Record(Save(NewMessage(target, Assistant, text)));
  }

  /** A turn's events as the handler produces them, one step after another. */
  lemma TurnEventsShape(before: seq<Event>, message: string, chatId: Option<string>, provider: Provider)
    ensures before + TurnEvents(message, chatId, provider)
         == before + [Save(NewMessage(TargetChat(chatId), User, message))]
            + Writes(StreamedPayloads(message, provider))
            + [Write(Done), End, Save(NewMessage(TargetChat(chatId), Assistant, AssistantText(message, provider)))]
  {
    WritesJoin(StreamedPayloads(message, provider), [Done]);
  }

  /** A mock answer streamed one character per frame, then done, end and
      the save of the mock text. */
  method RespondWithMock(x: Exchange, target: string, mock: string)
    modifies x
    ensures x.events == old(x.events) + Writes(CharPayloads(mock))
                        + [Write(Done), End, Save(NewMessage(target, Assistant, mock))]
  {
    WriteChars(x, mock);
    Finish(x, target, mock);
  }

  /** The live branch's events, piece by piece, are those of the turn. */
  lemma LivePieces(before: seq<Event>, target: string, message: string, deltas: seq<string>, failed: bool)
    ensures var provider := Live(deltas, failed);
      before + Writes(ContentPayloads(Forwarded(deltas)))
      + (if failed then Writes(CharPayloads(QuotaMock(message))) else [])
      + [Write(Done), End, Save(NewMessage(target, Assistant, if failed then QuotaMock(message) else Concat(Forwarded(deltas))))]
      == before + Writes(StreamedPayloads(message, provider))
         + [Write(Done), End, Save(NewMessage(target, Assistant, AssistantText(message, provider)))]
  {
    var live := Writes(ContentPayloads(Forwarded(deltas)));
    if failed {
      var mock := Writes(CharPayloads(QuotaMock(message)));
      WritesJoin(ContentPayloads(Forwarded(deltas)), CharPayloads(QuotaMock(message)));
      assert before + live + mock == before + (live + mock);
    } else {
      assert StreamedPayloads(message, Live(deltas, failed)) == ContentPayloads(Forwarded(deltas));
      assert live + [] == live;
    }
  }

  /** The live branch of the handler, after the user's message is saved. */
  method RespondLive(x: Exchange, target: string, message: string, deltas: seq<string>, failed: bool)
    modifies x
    ensures x.events == old(x.events) + Writes(StreamedPayloads(message, Live(deltas, failed)))
                        + [Write(Done), End,
                           Save(NewMessage(target, Assistant, AssistantText(message, Live(deltas, failed))))]
  {
    var assistantResponse := RelayDeltas(x, deltas);
    if !failed {
      Finish(x, target, assistantResponse);
    } else {
      RespondWithMock(x, target, QuotaMock(message));
    }
    LivePieces(old(x.events), target, message, deltas, failed);
  }

  /** The `/stream` handler. A failure of the first save is logged and
      swallowed, so nothing after it depends on its outcome. */
  method HandleStream(x: Exchange, message: string, chatId: Option<string>, provider: Provider)
    modifies x
    ensures x.events == old(x.events) + TurnEvents(message, chatId, provider)
  {
    var target := OrElse(chatId, DefaultChatId);
    x.Record(Save(NewMessage(target, User, message)));
    match provider {
      case NoClient =>
        RespondWithMock(x, target, NoClientMock(message));
      case Live(deltas, failed) =>
        RespondLive(x, target, message, deltas, failed);
    }
    TurnEventsShape(old(x.events), message, chatId, provider);
  }

  // ---------------------------------------------------------------------
  // What every turn guarantees.

  /** The user's message is saved before anything is written to the client. */
  lemma UserMessageSavedFirst(message: string, chatId: Option<string>, provider: Provider)
    ensures TurnEvents(message, chatId, provider)[0] == Save(NewMessage(TargetChat(chatId), User, message))
  {
  }

  /** Distinct payloads are written as distinct frames, so recording the
      payload of each write loses nothing about what the client receives. */
  lemma FrameInjective(p: Payload, q: Payload)
    ensures Frame(p) == Frame(q) ==> p == q
  {
    DecodeEncode(p);
    DecodeEncode(q);
    assert Frame(p)[6..|Frame(p)| - 2] == Encode(p);
    assert Frame(q)[6..|Frame(q)| - 2] == Encode(q);
  }

  /** Exactly one done frame is written, as the last write, immediately
      followed by the end of the response and then by the assistant save; the
      response is ended exactly once. */
  lemma DoneOnceThenEndThenSave(message: string, chatId: Option<string>, provider: Provider)
    ensures var es := TurnEvents(message, chatId, provider);
      && |es| >= 4
      && (forall i :: 0 <= i < |es| ==> (es[i] == Write(Done) <==> i == |es| - 3))
      && (forall i :: 0 <= i < |es| ==> (es[i] == End <==> i == |es| - 2))
      && es[|es| - 1] == Save(NewMessage(TargetChat(chatId), Assistant, AssistantText(message, provider)))
  {
    var es := TurnEvents(message, chatId, provider);
    var ps := StreamedPayloads(message, provider);
    var ws := Writes(ps + [Done]);
    assert es == [es[0]] + ws + [End, es[|es| - 1]];
    forall k | 0 <= k < |ps| ensures ps[k].Content? {
      match provider
      case NoClient =>
      case Live(deltas, failed) =>
        var a := ContentPayloads(Forwarded(deltas));
        if k >= |a| { assert ps[k] == CharPayloads(QuotaMock(message))[k - |a|]; }
    }
    forall i | 0 <= i < |es| ensures es[i] == Write(Done) <==> i == |es| - 3 {
      if 1 <= i < |es| - 3 {
        assert es[i] == ws[i - 1] == Write(ps[i - 1]);
      }
    }
  }

  /** Every save targets `chatId || 'default-chat'`, and there are exactly two:
      the first event (the user's text) and the last (the assistant's). */
  lemma SavesTargetOneChat(message: string, chatId: Option<string>, provider: Provider)
    ensures var es := TurnEvents(message, chatId, provider);
      forall i :: 0 <= i < |es| && es[i].Save? ==>
        (i == 0 || i == |es| - 1) && es[i].message.chatId == TargetChat(chatId)
  {
    var es := TurnEvents(message, chatId, provider);
    var ws := Writes(TurnPayloads(message, provider));
    forall i | 1 <= i < |es| - 2 ensures !es[i].Save? {
      assert es[i] == ws[i - 1];
    }
  }

  /** On the live path that completes, what is saved is exactly what was
      streamed: the non-empty deltas, in arrival order. */
  lemma LiveSavesWhatWasStreamed(message: string, deltas: seq<string>)
    ensures AssistantText(message, Live(deltas, false)) == PayloadsText(StreamedPayloads(message, Live(deltas, false)))
    ensures AssistantText(message, Live(deltas, false)) == Concat(Forwarded(deltas))
  {
    assert StreamedPayloads(message, Live(deltas, false)) == ContentPayloads(Forwarded(deltas));
    ContentPayloadsText(Forwarded(deltas));
  }

  /** Without a provider client the client receives, and the store keeps, the
      fixed mock sentence. */
  lemma NoClientStreamsMock(message: string)
    ensures PayloadsText(StreamedPayloads(message, NoClient)) == NoClientMock(message)
    ensures AssistantText(message, NoClient) == NoClientMock(message)
    ensures |StreamedPayloads(message, NoClient)| == |NoClientMock(message)|
  {
    CharPayloadsText(NoClientMock(message));
  }

  /** When the provider fails, the client receives whatever live fragments were
      already forwarded followed by the quota mock, but only the mock is saved. */
  lemma FailureSavesOnlyMock(message: string, deltas: seq<string>)
    ensures PayloadsText(StreamedPayloads(message, Live(deltas, true)))
            == Concat(Forwarded(deltas)) + QuotaMock(message)
    ensures AssistantText(message, Live(deltas, true)) == QuotaMock(message)
  {
    PayloadsTextJoin(ContentPayloads(Forwarded(deltas)), CharPayloads(QuotaMock(message)));
    ContentPayloadsText(Forwarded(deltas));
    CharPayloadsText(QuotaMock(message));
  }

  /** The live loop forwards exactly the deltas that are non-empty. */
  lemma ForwardedAreNonEmptyDeltas(deltas: seq<string>)
    ensures forall i :: 0 <= i < |Forwarded(deltas)| ==> Forwarded(deltas)[i] != "" && Forwarded(deltas)[i] in deltas
    ensures forall i :: 0 <= i < |deltas| && deltas[i] != "" ==> deltas[i] in Forwarded(deltas)
  {
    FilterKeeps(deltas, NonEmpty);
  }
}
