/**
 * The chat component: a history store that a submission extends with the
 * user's entry and an empty assistant entry, and that the stream consumer
 * then fills, read by read, from the agent's streamed response.
 */
module Chat {
  import opened Wrappers
  import opened JsText
  import opened Messages
  import opened DataStream

  /** How a response body's reader ends after its last chunk: `done`, or `read()` throws. */
  datatype StreamEnd = Done | ReadFailed(reason: string)

  /** A response body's reader: the decoded chunks its successive reads deliver, then its end. */
  datatype Reader = Reader(chunks: seq<string>, end: StreamEnd)

  /** The agent's streamed response, whose `body` may be missing, or the request's rejection. */
  datatype Response = Response(body: Option<Reader>) | Rejected(reason: string)

  /** Whether the request was answered with a body to read. */
  predicate HasBody(response: Response) {
    response.Response? && response.body.Some?
  }

  /** The exceptions that reach the catch of a submission. */
  datatype ChatError =
    | RequestFailed(reason: string)
    | NoStreamBody
    | StreamReadFailed(reason: string)
    | PartParseFailed(line: string)

  /** The history after a stream was consumed, and the exception that ended it, if any. */
  datatype Consumed = Consumed(history: seq<ChatMessage>, failure: Option<ChatError>)

  /**
   * `pipeStream`, one read per call as in the source: on `done` the target
   * entry is finalized; otherwise the chunk's delta is appended to it and the
   * next read follows. A chunk that fails to parse, or a read that throws,
   * ends the consumption with the history as it stands. Whatever the
   * outcome, the history keeps its length, order, ids and types, and no
   * entry but those carrying the target id changes.
   */
  function Pump(h: seq<ChatMessage>, id: int, chunks: seq<string>, end: StreamEnd, parse: Parser): (r: Consumed)
    ensures |r.history| == |h|
    ensures forall i :: 0 <= i < |h| ==> r.history[i].id == h[i].id && r.history[i].messageType == h[i].messageType
    ensures forall i :: 0 <= i < |h| && h[i].id != id ==> r.history[i] == h[i]
    decreases |chunks|
  {
    if chunks == [] then
      match end
      case Done => Consumed(Finalized(h, id), None)
      case ReadFailed(reason) => Consumed(h, Some(StreamReadFailed(reason)))
    else
      match ChunkDelta(chunks[0], parse)
      case Err(line) => Consumed(h, Some(PartParseFailed(line)))
      case Ok(delta) => Pump(Appended(h, id, delta), id, chunks[1..], end, parse)
  }

  /** The text appended before the consumption stopped: the deltas of the chunks before the first unparseable one. */
  function Delivered(chunks: seq<string>, parse: Parser): string {
    if chunks == [] then ""
    else
      match ChunkDelta(chunks[0], parse)
      case Err(_) => ""
      case Ok(delta) => delta + Delivered(chunks[1..], parse)
  }

  /**
   * How a consumption ends: with the first unparseable line if there is one,
   * otherwise as the reader ends.
   */
  lemma {:induction false} PumpOutcome(h: seq<ChatMessage>, id: int, chunks: seq<string>, end: StreamEnd, parse: Parser)
    ensures Pump(h, id, chunks, end, parse).failure ==
      match StreamDelta(chunks, parse)
      case Err(line) => Some(PartParseFailed(line))
      case Ok(_) => if end.Done? then None else Some(StreamReadFailed(end.reason))
    decreases |chunks|
  {
    if chunks != [] {
      match ChunkDelta(chunks[0], parse)
      case Err(_) =>
      case Ok(delta) => PumpOutcome(Appended(h, id, delta), id, chunks[1..], end, parse);
    }
  }

  /**
   * A consumption that reaches `done` with every chunk parsed leaves the
   * target entry holding its old message followed by all chunk deltas in
   * arrival order, and no longer streaming.
   */
  lemma {:induction false} PumpCompletes(h: seq<ChatMessage>, id: int, chunks: seq<string>, parse: Parser)
    requires StreamDelta(chunks, parse).Ok?
    ensures Pump(h, id, chunks, Done, parse).history
      == Finalized(Appended(h, id, StreamDelta(chunks, parse).value), id)
    ensures var r := Pump(h, id, chunks, Done, parse).history;
      forall i :: 0 <= i < |h| && h[i].id == id ==>
        r[i].message == h[i].message + StreamDelta(chunks, parse).value && r[i].streaming == Some(false)
    decreases |chunks|
  {
    if chunks == [] {
      FinalizedAfterEmptyAppend(h, id);
    } else {
      var delta := ChunkDelta(chunks[0], parse).value;
      var h' := Appended(h, id, delta);
      PumpCompletes(h', id, chunks[1..], parse);
      AppendedTwice(h, id, delta, StreamDelta(chunks[1..], parse).value);
    }
  }

  /** Entries carrying the id are all marked streaming. */
  predicate TargetStreaming(h: seq<ChatMessage>, id: int) {
    forall i :: 0 <= i < |h| && h[i].id == id ==> h[i].streaming == Some(true)
  }

  /**
   * A consumption that fails leaves the target entry streaming, holding its
   * old message followed by the deltas of the chunks read before the failure.
   */
  lemma {:induction false} PumpFails(h: seq<ChatMessage>, id: int, chunks: seq<string>, end: StreamEnd, parse: Parser)
    requires TargetStreaming(h, id)
    requires Pump(h, id, chunks, end, parse).failure.Some?
    ensures Pump(h, id, chunks, end, parse).history == Appended(h, id, Delivered(chunks, parse))
    ensures TargetStreaming(Pump(h, id, chunks, end, parse).history, id)
    decreases |chunks|
  {
    assert Appended(h, id, "") == h by {
      var a := Appended(h, id, "");
      forall i | 0 <= i < |h| ensures a[i] == h[i] {
        assert h[i].message + "" == h[i].message;
      }
    }
    if chunks != [] {
      match ChunkDelta(chunks[0], parse)
      case Err(_) =>
      case Ok(delta) =>
        var h' := Appended(h, id, delta);
        PumpFails(h', id, chunks[1..], end, parse);
        AppendedTwice(h, id, delta, Delivered(chunks[1..], parse));
    }
  }

  /**
   * `fetchStreamingContent` from the agent's response on: a rejected request
   * or a missing body throws; otherwise an empty, streaming assistant entry
   * with the next id is appended and the body is consumed into it.
   */
  function Fetch(h: seq<ChatMessage>, response: Response, parse: Parser): (r: Consumed)
    ensures !HasBody(response) ==> r.history == h && r.failure.Some?
    ensures HasBody(response) ==>
      && |r.history| == |h| + 1
      && r.history[..|h|] == h
      && r.history[|h|].id == NextAssistantId(h)
      && r.history[|h|].messageType == System
  {
    match response
    case Rejected(reason) => Consumed(h, Some(RequestFailed(reason)))
    case Response(None) => Consumed(h, Some(NoStreamBody))
    case Response(Some(reader)) =>
      var id := NextAssistantId(h);
      var h2 := h + [ChatMessage(id, System, "", Some(true))];
      var r := Pump(h2, id, reader.chunks, reader.end, parse);
      assert r.history[..|h|] == h by {
        assert forall i :: 0 <= i < |h| ==> h2[i] == h[i] && h2[i].id != id;
      }
      r
  }

  /**
   * Consuming a stream into a fresh assistant entry appended to an ascending
   * history: the earlier entries are kept, ids stay ascending, and the new
   * entry ends up finalized with the whole streamed text, or, on a failure,
   * still streaming with the text delivered so far.
   */
  lemma ConsumeIntoReply(h: seq<ChatMessage>, reader: Reader, parse: Parser)
    requires IdsAscending(h)
    ensures
      var id := NextAssistantId(h);
      var r := Pump(h + [ChatMessage(id, System, "", Some(true))], id, reader.chunks, reader.end, parse);
      && IdsAscending(r.history)
      && |r.history| == |h| + 1
      && r.history[..|h|] == h
      && r.history[|h|].id == id && r.history[|h|].messageType == System
      && (r.failure.None? ==>
            StreamDelta(reader.chunks, parse) == Ok(r.history[|h|].message)
            && r.history[|h|].streaming == Some(false))
      && (r.failure.Some? ==>
            r.history[|h|].message == Delivered(reader.chunks, parse)
            && r.history[|h|].streaming == Some(true))
  {
    var id := NextAssistantId(h);
    var reply := ChatMessage(id, System, "", Some(true));
    var h2 := h + [reply];
    var r := Pump(h2, id, reader.chunks, reader.end, parse);
    assert IdsAscending(h2) by {
      NextIdFollowsLast(h);
      AppendNextKeepsAscending(h, reply);
    }
    assert IdsAscending(r.history) by {
      SameIdsKeepAscending(h2, r.history);
    }
    assert r.history[..|h|] == h by {
      forall i | 0 <= i < |h| ensures r.history[i] == h[i] {
        assert h2[i] == h[i] && h2[i].id < id;
      }
    }
    assert h2[|h|] == reply;
    if r.failure.None? {
      assert reader.end.Done? && StreamDelta(reader.chunks, parse).Ok? by {
        PumpOutcome(h2, id, reader.chunks, reader.end, parse);
      }
      PumpCompletes(h2, id, reader.chunks, parse);
      assert "" + StreamDelta(reader.chunks, parse).value == StreamDelta(reader.chunks, parse).value;
    } else {
      assert TargetStreaming(h2, id);
      PumpFails(h2, id, reader.chunks, reader.end, parse);
      assert "" + Delivered(reader.chunks, parse) == Delivered(reader.chunks, parse);
    }
  }

  /**
   * One submission, from an ascending history: the history is kept as it
   * was, the user entry follows it with the next id, and the assistant entry
   * follows that with the id after, ending as `ConsumeIntoReply` says; the
   * exchange fails exactly as the stream does. Ids stay ascending.
   */
  lemma SubmitExchange(h: seq<ChatMessage>, question: string, response: Response, parse: Parser)
    requires IdsAscending(h)
    ensures
      var user := ChatMessage(NextUserId(h), User, question, None);
      var r := Fetch(h + [user], response, parse);
      && IdsAscending(r.history)
      && |r.history| >= |h| + 1
      && r.history[..|h| + 1] == h + [user]
      && (response.Rejected? ==> r == Consumed(h + [user], Some(RequestFailed(response.reason))))
      && (response == Response(None) ==> r == Consumed(h + [user], Some(NoStreamBody)))
      && (HasBody(response) ==>
            var reader := response.body.value;
            && |r.history| == |h| + 2
            && r.history[|h| + 1].id == user.id + 1
            && r.failure == (match StreamDelta(reader.chunks, parse)
                             case Err(line) => Some(PartParseFailed(line))
                             case Ok(_) => if reader.end.Done? then None else Some(StreamReadFailed(reader.end.reason))))
  {
    var user := ChatMessage(NextUserId(h), User, question, None);
    var h1 := h + [user];
    AppendNextKeepsAscending(h, user);
    if HasBody(response) {
      var reader := response.body.value;
      var id := NextAssistantId(h1);
      NextIdFollowsLast(h1);
      assert id == user.id + 1;
      ConsumeIntoReply(h1, reader, parse);
      PumpOutcome(h1 + [ChatMessage(id, System, "", Some(true))], id, reader.chunks, reader.end, parse);
    } else {
      assert h1[..|h| + 1] == h1;
    }
  }

  /** The component's state: the history store and the signals a submission sets. */
  class ChatComponent {
    var history: seq<ChatMessage>
    var input: string
    var error: Option<ChatError>
    var isLoading: bool

    /** The history invariant: ids positive, unique and ascending. */
    ghost predicate Valid()
      reads this
    {
      IdsAscending(history)
    }

    constructor ()
      ensures Valid()
      ensures history == [] && input == "" && error == None && !isLoading
    {
      history := [];
      input := "";
      error := None;
      isLoading := false;
    }

    /** The input box's `onInput` handler. */
    method SetInput(value: string)
      modifies this`input
      ensures input == value
    {
      input := value;
    }

    /**
     * `addMessageAndScroll`: the message goes at the end of the history. A
     * private step of `FetchStreamingContent` and `HandleSubmit`, which show
     * beforehand that the entry they append keeps the ids ascending.
     */
    method AddMessageAndScroll(message: ChatMessage)
      modifies this`history
      ensures history == old(history) + [message]
    {
      history := history + [message];
    }

    /** `pipeStream` as a loop over the reader's chunks. */
    method PipeStream(reader: Reader, id: int, parse: Parser) returns (failure: Option<ChatError>)
      requires Valid()
      modifies this`history
      ensures Valid()
      ensures Consumed(history, failure) == Pump(old(history), id, reader.chunks, reader.end, parse)
    {
      var chunks := reader.chunks;
      var i := 0;
      while i < |chunks|
        invariant 0 <= i <= |chunks|
        invariant Pump(history, id, chunks[i..], reader.end, parse)
               == Pump(old(history), id, chunks, reader.end, parse)
      {
        assert chunks[i..][0] == chunks[i] && chunks[i..][1..] == chunks[i + 1..];
        match ChunkDelta(chunks[i], parse)
        case Err(line) =>
          return Some(PartParseFailed(line));
        case Ok(delta) =>
          history := Appended(history, id, delta);
        i := i + 1;
      }
      match reader.end
      case Done =>
        history := Finalized(history, id);
        failure := None;
      case ReadFailed(reason) =>
        failure := Some(StreamReadFailed(reason));
      SameIdsKeepAscending(old(history), history);
    }

    /**
     * `fetchStreamingContent`: the request carries the question alone; the
     * loading flag is cleared once the response has a body.
     */
    method FetchStreamingContent(question: string, response: Response, parse: Parser)
      returns (request: seq<string>, failure: Option<ChatError>)
      requires Valid()
      modifies this`history, this`isLoading
      ensures Valid()
      ensures request == [question]
      ensures Consumed(history, failure) == Fetch(old(history), response, parse)
      ensures isLoading == (old(isLoading) && !HasBody(response))
    {
      request := [question];
      match response
      case Rejected(reason) =>
        return request, Some(RequestFailed(reason));
      case Response(None) =>
        return request, Some(NoStreamBody);
      case Response(Some(reader)) =>
        isLoading := false;
        var assistantMessageId := NextAssistantId(history);
        var reply := ChatMessage(assistantMessageId, System, "", Some(true));
        NextIdFollowsLast(history);
        AppendNextKeepsAscending(history, reply);
        AddMessageAndScroll(reply);
        failure := PipeStream(reader, assistantMessageId, parse);
    }

    /**
     * `handleSubmit`: an input that trims to nothing is ignored; otherwise
     * the input is cleared, the user entry is appended, the request is sent,
     * and an exception is caught into `error` with the loading flag cleared.
     */
    method HandleSubmit(response: Response, parse: Parser) returns (request: Option<seq<string>>)
      requires Valid()
      modifies this
      ensures Valid()
      ensures Trim(old(input)) == "" ==>
        && request == None
        && history == old(history) && input == old(input)
        && error == old(error) && isLoading == old(isLoading)
      ensures Trim(old(input)) != "" ==>
        var question := Trim(old(input));
        var user := ChatMessage(NextUserId(old(history)), User, question, None);
        var r := Fetch(old(history) + [user], response, parse);
        && request == Some([question])
        && input == ""
        && history == r.history
        && error == (if r.failure.Some? then r.failure else old(error))
        && !isLoading
    {
      var question := Trim(input);
      if question == "" {
        return None;
      }
      input := "";
      var newMessageId := NextUserId(history);
      var user := ChatMessage(newMessageId, User, question, None);
      AppendNextKeepsAscending(history, user);
      AddMessageAndScroll(user);
      isLoading := true;
      var messages, failure := FetchStreamingContent(question, response, parse);
      request := Some(messages);
      if failure.Some? {
        error := failure;
        isLoading := false;
      }
    }
  }

  /**
   * After a first user entry, a reply streamed as two text frames becomes
   * the finalized entry 2 holding both texts in order.
   */
  lemma TwoFrameExchange(question: string, a: string, b: string)
    requires PlainText(a) && PlainText(b)
    ensures Fetch([ChatMessage(1, User, question, None)],
                  Response(Some(Reader([TextFrame(a), TextFrame(b)], Done))), TextFrameParser)
         == Consumed([ChatMessage(1, User, question, None),
                      ChatMessage(2, System, a + b, Some(false))], None)
  {
    var h := [ChatMessage(1, User, question, None)];
    var chunks := [TextFrame(a), TextFrame(b)];
    assert StreamDelta(chunks, TextFrameParser) == Ok(a + b) by {
      TextFrameChunk(a);
      TextFrameChunk(b);
      assert chunks[1..] == [TextFrame(b)] && chunks[1..][1..] == [];
      assert b + "" == b;
      assert StreamDelta(chunks[1..], TextFrameParser) == Ok(b);
    }
    NextIdFollowsLast(h);
    assert NextAssistantId(h) == 2;
    var reply := ChatMessage(2, System, "", Some(true));
    PumpOutcome(h + [reply], 2, chunks, Done, TextFrameParser);
    ConsumeIntoReply(h, Reader(chunks, Done), TextFrameParser);
    var r := Pump(h + [reply], 2, chunks, Done, TextFrameParser).history;
    assert r[1] == ChatMessage(2, System, a + b, Some(false));
    assert r == [r[0], r[1]];
  }

  /**
   * A client of the component: a fresh chat, a question that trims to
   * itself, and a reply streamed as two text frames end with the user entry 1
   * and the finalized reply 2 holding both texts in order.
   */
  method TwoFrameConversation(question: string, a: string, b: string) returns (chat: ChatComponent)
    requires question != "" && Trim(question) == question
    requires PlainText(a) && PlainText(b)
    ensures chat.history == [ChatMessage(1, User, question, None), ChatMessage(2, System, a + b, Some(false))]
    ensures chat.error == None && !chat.isLoading && chat.input == ""
  {
    chat := new ChatComponent();
    chat.SetInput(question);
    var response := Response(Some(Reader([TextFrame(a), TextFrame(b)], Done)));
    var request := chat.HandleSubmit(response, TextFrameParser);
    TwoFrameExchange(question, a, b);
    assert [] + [ChatMessage(1, User, question, None)] == [ChatMessage(1, User, question, None)];
  }
}
