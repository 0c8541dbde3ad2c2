/**
 * The request, message and chunk shapes of the chat API and the field
 * constraints that request validation enforces.
 */
module ChatModels {
  import opened Wrappers

  /** The three roles a client may send; there is no tool role. */
  datatype MessageRole = User | Assistant | System

  /** The enum's string values. */
  function RoleValue(r: MessageRole): string
  {
    match r
    case User => "user"
    case Assistant => "assistant"
    case System => "system"
  }

  /** Validation of a role string in a request body. */
  function ParseRole(s: string): Option<MessageRole>
  {
    if s == "user" then Some(User)
    else if s == "assistant" then Some(Assistant)
    else if s == "system" then Some(System)
    else None
  }

  /** A role string is accepted exactly when it is one of the three enum
      values, and it is read back as that value. */
  lemma ParseRoleExact(s: string, r: MessageRole)
    ensures ParseRole(RoleValue(r)) == Some(r)
    ensures ParseRole(s) == Some(r) <==> s == RoleValue(r)
    ensures ParseRole(s).Some? <==> s in {"user", "assistant", "system"}
  {
  }

  /** A history entry (its timestamp and metadata play no part in the core). */
  datatype ChatMessage = ChatMessage(role: MessageRole, content: string)

  /** The request body before validation. */
  datatype RawChatRequest = RawChatRequest(
    message: Field<string>,
    messages: Field<seq<ChatMessage>>,
    conversationId: Field<string>,
    model: Field<string>,
    maxTokens: Field<int>,
    stream: Field<bool>)

  /** A validated request. */
  datatype ChatRequest = ChatRequest(
    message: string,
    messages: Option<seq<ChatMessage>>,
    conversationId: Option<string>,
    model: Option<string>,
    maxTokens: Option<int>,
    stream: bool)

  const MaxMessageLength: int := 10000
  const MaxTokensLimit: int := 4000

  predicate ValidMaxTokens(m: Option<int>) {
    m.None? || 1 <= m.value <= MaxTokensLimit
  }

  /** Request validation: `message` is required with 1 to 10000 characters,
      `max_tokens` when given is in 1..4000, and `stream` is a non-null
      boolean that defaults to true. */
  function ValidateChatRequest(raw: RawChatRequest): (r: Result<ChatRequest>)
  {
    if !raw.message.Given? then Err("message: field required")
    else if !(1 <= |raw.message.value| <= MaxMessageLength) then Err("message: length out of range")
    else if raw.maxTokens.Given? && !(1 <= raw.maxTokens.value <= MaxTokensLimit) then Err("max_tokens: out of range")
    else if raw.stream.Null? then Err("stream: not a boolean")
    else Ok(ChatRequest(
      raw.message.value,
      OptionalField(raw.messages),
      OptionalField(raw.conversationId),
      OptionalField(raw.model),
      OptionalField(raw.maxTokens),
      if raw.stream.Given? then raw.stream.value else true))
  }

  /** A body is accepted exactly when its constraints hold, and the accepted
      request keeps the client's values, with `stream` defaulting to true. */
  lemma ValidateChatRequestSpec(raw: RawChatRequest)
    ensures ValidateChatRequest(raw).Ok? <==>
              && raw.message.Given?
              && 1 <= |raw.message.value| <= MaxMessageLength
              && (raw.maxTokens.Given? ==> 1 <= raw.maxTokens.value <= MaxTokensLimit)
              && !raw.stream.Null?
    ensures ValidateChatRequest(raw).Ok? ==>
              var q := ValidateChatRequest(raw).value;
              && q.message == raw.message.value
              && 1 <= |q.message| <= MaxMessageLength
              && ValidMaxTokens(q.maxTokens)
              && (raw.stream.Absent? ==> q.stream)
              && (raw.stream.Given? ==> q.stream == raw.stream.value)
  {
  }

  /** Free-form chunk metadata (a JSON object); never set by the core. */
  type Metadata = map<string, string>

  /** One streamed chunk. It declares no chunk-type field. */
  datatype StreamChunk = StreamChunk(
    content: string,
    conversationId: string,
    isFinal: bool,
    metadata: Option<Metadata>)

  /** `StreamChunk(content=..., conversation_id=..., is_final=...)`, with the
      declared defaults `is_final=False` and `metadata=None`. */
  function Chunk(content: string, conversationId: string, isFinal: bool := false): (c: StreamChunk)
    ensures c.content == content && c.conversationId == conversationId
    ensures c.isFinal == isFinal && c.metadata.None?
  {
    StreamChunk(content, conversationId, isFinal, None)
  }

  /** The non-streaming reply (its timestamp and metadata are left out). */
  datatype ChatResponse = ChatResponse(message: string, conversationId: string, model: string)
}
