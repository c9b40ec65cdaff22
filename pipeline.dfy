/** The relay and the chat client together: when the bytes the client reads
    are the relay's frames, cut into chunks only at frame boundaries, the
    client's reader loop recovers exactly the text the relay streamed. */
module Pipeline {
  import opened Base
  import opened Frames
  import StreamRelay
  import ChatClient

  /** The response text the relay writes for a run of payloads. */
  function FramesText(ps: seq<Payload>): string {
    ConcatMap(ps, Frame)
  }

  function Flatten<T>(groups: seq<seq<T>>): seq<T> {
    if groups == [] then [] else groups[0] + Flatten(groups[1..])
  }

  /** The chunks the client reads when each chunk carries whole frames:
      chunk i is the frames of `groups[i]`. */
  function Chunks(groups: seq<seq<Payload>>): (chunks: seq<string>)
    ensures |chunks| == |groups|
  {
    seq(|groups|, i requires 0 <= i < |groups| => FramesText(groups[i]))
  }

  /** The line of a frame carries the payload's text: the fragment of a
      content frame, nothing for the done frame. */
  lemma FrameLineText(p: Payload)
    ensures ChatClient.LineText(DataPrefix + Encode(p)) == PayloadText(p)
  {
    match p
    case Content(t) => ChatClient.ContentLineText(t);
    case Done => ChatClient.IgnoredLines(DataPrefix + Encode(Done));
  }

  /** The lines of a run of frames: the first frame's JSON line, an empty
      line, then the lines of the remaining frames. */
  lemma FramesLines(ps: seq<Payload>)
    requires ps != []
    ensures Split(FramesText(ps), '\n')
         == [DataPrefix + Encode(ps[0])] + ([""] + Split(FramesText(ps[1..]), '\n'))
  {
    var line := DataPrefix + Encode(ps[0]);
    var rest := FramesText(ps[1..]);
    FrameLines(ps[0]);
    assert FramesText(ps) == line + ['\n'] + ("" + ['\n'] + rest);
    SplitAtFirst(line, '\n', "" + ['\n'] + rest);
    SplitAtFirst("", '\n', rest);
  }

  /** A chunk made of whole frames yields the text of its payloads: each frame
      splits into its JSON line and an empty line, and nothing else. */
  lemma {:induction false} ChunkOfFrames(ps: seq<Payload>)
    ensures ChatClient.ChunkText(FramesText(ps)) == PayloadsText(ps)
  {
    if ps == [] {
      assert Split("", '\n') == [""];
      assert ChatClient.LinesText([""]) == ChatClient.LineText("") + ChatClient.LinesText([]);
    } else {
      var line := DataPrefix + Encode(ps[0]);
      var restLines := Split(FramesText(ps[1..]), '\n');
      FramesLines(ps);
      calc {
        ChatClient.LinesText([line] + ([""] + restLines));
        ChatClient.LineText(line) + ChatClient.LinesText([""] + restLines);
        { assert ([""] + restLines)[1..] == restLines; }
        ChatClient.LineText(line) + (ChatClient.LineText("") + ChatClient.LinesText(restLines));
        { FrameLineText(ps[0]); ChunkOfFrames(ps[1..]); }
        PayloadText(ps[0]) + ("" + PayloadsText(ps[1..]));
      }
    }
  }

  lemma ChunksCons(groups: seq<seq<Payload>>)
    requires groups != []
    ensures ChatClient.StreamText(Chunks(groups))
         == ChatClient.ChunkText(FramesText(groups[0])) + ChatClient.StreamText(Chunks(groups[1..]))
  {
    assert Chunks(groups)[1..] == Chunks(groups[1..]);
  }

  lemma FlattenCons<T>(groups: seq<seq<T>>)
    requires groups != []
    ensures Flatten(groups) == groups[0] + Flatten(groups[1..])
  {
  }

  /** Reading chunk after chunk yields the text of all their payloads. */
  lemma {:induction false} StreamOfFrames(groups: seq<seq<Payload>>)
    ensures ChatClient.StreamText(Chunks(groups)) == PayloadsText(Flatten(groups))
  {
    if groups != [] {
      ChunksCons(groups);
      StreamOfFrames(groups[1..]);
      ChunkOfFrames(groups[0]);
      FlattenCons(groups);
      PayloadsTextJoin(groups[0], Flatten(groups[1..]));
    }
  }

  /** Whatever the provider does, a client that reads the whole turn in
      frame-aligned chunks shows exactly the text streamed before the done
      frame. */
  lemma ClientShowsStreamedText(message: string, provider: StreamRelay.Provider, groups: seq<seq<Payload>>)
    requires Flatten(groups) == StreamRelay.TurnPayloads(message, provider)
    ensures ChatClient.StreamText(Chunks(groups)) == PayloadsText(StreamRelay.StreamedPayloads(message, provider))
  {
    StreamOfFrames(groups);
    PayloadsTextJoin(StreamRelay.StreamedPayloads(message, provider), [Done]);
  }

  /** When the provider completes, or is absent, the client shows what the
      server saves as the assistant's message. */
  lemma ClientShowsSavedText(message: string, provider: StreamRelay.Provider, groups: seq<seq<Payload>>)
    requires !(provider.Live? && provider.failed)
    requires Flatten(groups) == StreamRelay.TurnPayloads(message, provider)
    ensures ChatClient.StreamText(Chunks(groups)) == StreamRelay.AssistantText(message, provider)
  {
    ClientShowsStreamedText(message, provider, groups);
    match provider
    case NoClient => StreamRelay.NoClientStreamsMock(message);
    case Live(deltas, _) => StreamRelay.LiveSavesWhatWasStreamed(message, deltas);
  }

  /** When the provider fails midway, the client shows the fragments that got
      through followed by the mock, while the server saves only the mock. */
  lemma ClientShowsMoreThanSavedOnFailure(message: string, deltas: seq<string>, groups: seq<seq<Payload>>)
    requires Flatten(groups) == StreamRelay.TurnPayloads(message, StreamRelay.Live(deltas, true))
    ensures ChatClient.StreamText(Chunks(groups))
         == Concat(StreamRelay.Forwarded(deltas)) + StreamRelay.AssistantText(message, StreamRelay.Live(deltas, true))
  {
    ClientShowsStreamedText(message, StreamRelay.Live(deltas, true), groups);
    StreamRelay.FailureSavesOnlyMock(message, deltas);
  }
}
