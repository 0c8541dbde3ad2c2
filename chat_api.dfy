/**
 * The chat HTTP endpoints: `POST /chat/` answers with one JSON reply,
 * `POST /chat/stream` writes the service's chunks as server-sent events
 * followed by an end marker. Chunks reach the wire through their JSON
 * encoding, which is a parameter here.
 */
module ChatApi {
  import opened Wrappers
  import opened Text
  import opened Config
  import opened ChatModels
  import opened Messages
  import opened ChatService

  // ---------------------------------------------------------------- errors

  const BadRequest: nat := 400
  const InternalServerError: nat := 500

  const StreamHint := "Use /chat/stream endpoint for streaming responses"
  const InternalErrorPrefix := "Internal server error: "

  /** What the handler sends back: the reply body, or an error status with
      its detail text. */
  datatype HttpResult = Success(response: ChatResponse) | HttpError(status: nat, detail: string)

  /** How a call into the service ended: its reply, or the exception it raised. */
  datatype ServiceOutcome = Returned(content: string) | ValueErrorRaised(message: string) | OtherRaised(message: string)

  /** `str()` of an HTTP exception: its status, a colon, then its detail. */
  function HttpExceptionText(status: nat, detail: string): (s: string)
    ensures |s| >= |detail| + 3 && s[|s| - |detail|..] == detail
  {
    NatToString(status) + ": " + detail
  }

  /** The reply: the service's text, the request's conversation id or
      "new", and the request's model or "default". */
  function Reply(request: ChatRequest, content: string): ChatResponse
  {
    ChatResponse(content, StrOr(request.conversationId, "new"), StrOr(request.model, "default"))
  }

  /** The `POST /chat/` handler as written: the 400 it raises for a streaming
      request is itself caught by the catch-all clause and turned into a 500. */
  function ChatHandlerAsWritten(request: ChatRequest, service: ServiceOutcome): (r: HttpResult)
    ensures request.stream ==> r.HttpError? && r.status == InternalServerError
  {
    if request.stream then
      HttpError(InternalServerError, InternalErrorPrefix + HttpExceptionText(BadRequest, StreamHint))
    else
      match service
      case Returned(content) => Success(Reply(request, content))
      case ValueErrorRaised(message) => HttpError(BadRequest, message)
      case OtherRaised(message) => HttpError(InternalServerError, InternalErrorPrefix + message)
  }

  /** A streaming request sent to `POST /chat/` gets a 500 whose detail
      wraps the intended 400. */
  lemma StreamRequestGetsInternalError(request: ChatRequest, service: ServiceOutcome)
    requires request.stream
    ensures ChatHandlerAsWritten(request, service)
            == HttpError(500, InternalErrorPrefix + "400: " + StreamHint)
    ensures ChatHandlerAsWritten(request, service) != ChatHandler(request, service)
  {
    assert NatToString(400) == "400" by {
      assert NatToString(4) == "4";
      assert NatToString(40) == NatToString(4) + "0";
      assert NatToString(400) == NatToString(40) + "0";
    }
    assert HttpExceptionText(BadRequest, StreamHint) == "400: " + StreamHint;
  }

  /** The handler as intended: a streaming request is refused with a 400
      pointing at the streaming endpoint; otherwise the service's reply is
      wrapped, a ValueError becomes a 400 and anything else a 500. */
  function ChatHandler(request: ChatRequest, service: ServiceOutcome): (r: HttpResult)
    ensures r.Success? <==> !request.stream && service.Returned?
    ensures request.stream ==> r == HttpError(BadRequest, StreamHint)
    ensures r.HttpError? && r.status == InternalServerError ==>
              service.OtherRaised? && InternalErrorPrefix <= r.detail
    ensures !request.stream && service.ValueErrorRaised? ==> r == HttpError(BadRequest, service.message)
    ensures !request.stream && service.OtherRaised? ==>
              r == HttpError(InternalServerError, InternalErrorPrefix + service.message)
    ensures r.Success? ==>
              && r.response.message == service.content
              && r.response.conversationId == StrOr(request.conversationId, "new")
              && r.response.model == StrOr(request.model, "default")
  {
    if request.stream then HttpError(BadRequest, StreamHint)
    else
      match service
      case Returned(content) => Success(Reply(request, content))
      case ValueErrorRaised(message) => HttpError(BadRequest, message)
      case OtherRaised(message) => HttpError(InternalServerError, InternalErrorPrefix + message)
  }

  /** Both versions agree on every request that does not ask for streaming. */
  lemma HandlersAgreeWithoutStreaming(request: ChatRequest, service: ServiceOutcome)
    requires !request.stream
    ensures ChatHandlerAsWritten(request, service) == ChatHandler(request, service)
  {
  }

  /** `POST /chat/` over the chat service, as written. The service is asked
      only when the request does not ask for streaming; it never raises. */
  function ChatEndpoint(settings: Settings, llm: Llm, request: ChatRequest, freshId: string): HttpResult
  {
    ChatHandlerAsWritten(request, Returned(Chat(settings, llm, request.message, request.messages,
                                                request.conversationId, request.model, freshId)))
  }

  /** The same endpoint over the intended handler. */
  function CorrectedChatEndpoint(settings: Settings, llm: Llm, request: ChatRequest, freshId: string): HttpResult
  {
    ChatHandler(request, Returned(Chat(settings, llm, request.message, request.messages,
                                       request.conversationId, request.model, freshId)))
  }

  /** Because the service turns every failure into an apology, the endpoint
      answers a non-streaming request with `chat`'s text, the request's
      conversation id or "new" and its model or "default"; a streaming
      request, which is the default, gets the 500 that wraps the intended
      400. The corrected endpoint differs only there, answering 400. */
  lemma ChatEndpointSpec(settings: Settings, llm: Llm, request: ChatRequest, freshId: string)
    ensures var r := ChatEndpoint(settings, llm, request, freshId);
            && (r.Success? <==> !request.stream)
            && (request.stream ==> r == HttpError(InternalServerError, InternalErrorPrefix + "400: " + StreamHint))
            && (r.Success? ==>
                  && r.response.message == Chat(settings, llm, request.message, request.messages,
                                                request.conversationId, request.model, freshId)
                  && r.response.conversationId == StrOr(request.conversationId, "new")
                  && r.response.model == StrOr(request.model, "default"))
    ensures var c := CorrectedChatEndpoint(settings, llm, request, freshId);
            && (request.stream ==> c == HttpError(BadRequest, StreamHint))
            && (!request.stream ==> c == ChatEndpoint(settings, llm, request, freshId))
  {
    var outcome := Returned(Chat(settings, llm, request.message, request.messages,
                                 request.conversationId, request.model, freshId));
    if request.stream {
      StreamRequestGetsInternalError(request, outcome);
    } else {
      HandlersAgreeWithoutStreaming(request, outcome);
    }
  }

  /** A request without a conversation id is answered with "new", even
      though the service ran under the minted id. */
  lemma ReplyDoesNotEchoMintedId(settings: Settings, llm: Llm, request: ChatRequest, freshId: string)
    requires !request.stream && request.conversationId.None? && freshId != "new"
    ensures ChatEndpoint(settings, llm, request, freshId).response.conversationId
            != InitialState(settings, request.message, request.messages, request.conversationId,
                            request.model, freshId).conversationId
  {
  }

  // ---------------------------------------------------------------- server-sent events

  const FramePrefix := "data: "
  const FrameEnd := "\n\n"

  /** One server-sent event carrying a payload. */
  function Frame(payload: string): (f: string)
    ensures |f| == |payload| + 8
  {
    FramePrefix + payload + FrameEnd
  }

  /** The event that ends a stream. */
  const DoneFrame := Frame("[DONE]")

  /** The payload of an event: what lies between "data: " and the blank line. */
  function Payload(frame: string): (p: Option<string>)
    ensures p.Some? ==> Frame(p.value) == frame
  {
    if |frame| >= 8 && frame[..6] == FramePrefix && frame[|frame| - 2..] == FrameEnd
    then
      var p := frame[6..|frame| - 2];
      assert frame == frame[..6] + p + frame[|frame| - 2..];
      Some(p)
    else None
  }

  /** Every payload comes back out of its event unchanged. */
  lemma PayloadFrame(payload: string)
    ensures Payload(Frame(payload)) == Some(payload)
  {
    var f := Frame(payload);
    assert f[..6] == FramePrefix && f[|f| - 2..] == FrameEnd && f[6..|f| - 2] == payload;
  }

  /** The events a stream writes: one per chunk, then the end marker. */
  function StreamFrames(chunks: seq<StreamChunk>, encode: StreamChunk -> string): seq<string>
  {
    seq(|chunks|, i requires 0 <= i < |chunks| => Frame(encode(chunks[i]))) + [DoneFrame]
  }

  /** `generate_stream`: writes each chunk as an event, then the end marker. */
  method GenerateStream(chunks: seq<StreamChunk>, encode: StreamChunk -> string) returns (frames: seq<string>)
    ensures frames == StreamFrames(chunks, encode)
  {
    frames := [];
    for i := 0 to |chunks|
      invariant |frames| == i
      invariant forall k :: 0 <= k < i ==> frames[k] == Frame(encode(chunks[k]))
    {
      var chunkData := encode(chunks[i]);
      frames := frames + [Frame(chunkData)];
    }
    frames := frames + [DoneFrame];
  }

  /** A reader recovers every encoded chunk in order and then sees the end
      marker; as long as encoded chunks are JSON objects, the marker cannot be
      mistaken for a chunk. */
  lemma StreamFramesSpec(chunks: seq<StreamChunk>, encode: StreamChunk -> string)
    ensures var frames := StreamFrames(chunks, encode);
            && |frames| == |chunks| + 1
            && frames[|chunks|] == DoneFrame
            && (forall k :: 0 <= k < |chunks| ==> Payload(frames[k]) == Some(encode(chunks[k])))
            && ((forall k :: 0 <= k < |chunks| ==> encode(chunks[k]) != [] && encode(chunks[k])[0] == '{') ==>
                  forall k :: 0 <= k < |chunks| ==> frames[k] != DoneFrame)
  {
    var frames := StreamFrames(chunks, encode);
    forall k | 0 <= k < |chunks| ensures Payload(frames[k]) == Some(encode(chunks[k])) {
      PayloadFrame(encode(chunks[k]));
    }
    PayloadFrame("[DONE]");
  }

  /** `POST /chat/stream` over the chat service, whatever the request's
      `stream` flag says. */
  method StreamEndpoint(settings: Settings, llm: Llm, request: ChatRequest, freshId: string,
                        encode: StreamChunk -> string) returns (frames: seq<string>)
    ensures frames == StreamFrames(StreamChatChunks(settings, llm, request.message, request.messages,
                                                    request.conversationId, request.model, freshId), encode)
  {
    var chunks := StreamChat(settings, llm, request.message, request.messages,
                             request.conversationId, request.model, freshId);
    frames := GenerateStream(chunks, encode);
  }

  /** The event before the end marker always carries the service's final chunk. */
  lemma StreamEndpointEndsWithFinalChunk(settings: Settings, llm: Llm, request: ChatRequest, freshId: string,
                                         encode: StreamChunk -> string)
    ensures var chunks := StreamChatChunks(settings, llm, request.message, request.messages,
                                           request.conversationId, request.model, freshId);
            var frames := StreamFrames(chunks, encode);
            && |frames| >= 2
            && frames[|frames| - 1] == DoneFrame
            && Payload(frames[|frames| - 2]) == Some(encode(chunks[|chunks| - 1]))
            && chunks[|chunks| - 1].isFinal
  {
    var chunks := StreamChatChunks(settings, llm, request.message, request.messages,
                                   request.conversationId, request.model, freshId);
    StreamChatEnds(settings, llm, request.message, request.messages, request.conversationId, request.model, freshId);
    StreamFramesSpec(chunks, encode);
  }
}
