/**
 * The LangChain side of a dialogue: message kinds, the conversion from API
 * chat messages, the model-name router, system-prompt injection, and the
 * shape of a graph run (node updates followed by completion or a raised
 * error). The model provider and the graph library are abstract: a reply is
 * an oracle value, and a run is the list of per-node message updates.
 */
module Messages {
  import opened Wrappers
  import opened Text
  import opened Config
  import opened ChatModels

  /** One tool invocation requested by the model. */
  datatype ToolCall = ToolCall(name: string, id: string)

  /** LangChain messages: human, AI (possibly with tool calls), system, tool. */
  datatype LcMessage =
    | Human(content: string)
    | Ai(content: string, toolCalls: seq<ToolCall>)
    | SystemMsg(content: string)
    | ToolMsg(content: string, toolCallId: string)

  /** The chat-model client `_get_llm` builds. */
  datatype Provider = OpenAi(model: string, apiKey: string) | Anthropic(model: string, apiKey: string)

  /** What the provider answers for a message list: an AI message, or the
      text of the exception the call raised. */
  datatype LlmReply = Replied(content: string, toolCalls: seq<ToolCall>) | Failed(error: string)

  /** The remote model, as an oracle. */
  type Llm = (Provider, seq<LcMessage>) -> LlmReply

  /** The messages one graph node returned in one step. */
  datatype NodeUpdate = NodeUpdate(node: string, messages: seq<LcMessage>)

  /** How a graph run ended: normally, or with an exception and its text. */
  datatype Outcome = Completed | Raised(error: string)

  /** The updates a run streams, in order, and how it ended. */
  datatype GraphRun = GraphRun(updates: seq<NodeUpdate>, outcome: Outcome)

  /** The model name actually used: the given one, or the configured
      default when it is missing or empty. */
  function ModelOrDefault(settings: Settings, modelName: Option<string>): (model: string)
    ensures Truthy(modelName) ==> model == modelName.value
    ensures !Truthy(modelName) ==> model == settings.defaultModel
  {
    StrOr(modelName, settings.defaultModel)
  }

  /** `_get_llm`: a "gpt" name needs the OpenAI key, a "claude" name the
      Anthropic key, any other name is unsupported. */
  function GetLlm(settings: Settings, modelName: Option<string>): (r: Result<Provider>)
    ensures r.Ok? ==> r.value.model == ModelOrDefault(settings, modelName) && r.value.apiKey != ""
    ensures r.Ok? && r.value.OpenAi? <==>
              StartsWith(ModelOrDefault(settings, modelName), "gpt") && Truthy(settings.openaiApiKey)
    ensures r.Ok? && r.value.Anthropic? <==>
              && !StartsWith(ModelOrDefault(settings, modelName), "gpt")
              && StartsWith(ModelOrDefault(settings, modelName), "claude")
              && Truthy(settings.anthropicApiKey)
    ensures StartsWith(ModelOrDefault(settings, modelName), "gpt") && !Truthy(settings.openaiApiKey) ==>
              r == Err("OpenAI API key not configured")
    ensures !StartsWith(ModelOrDefault(settings, modelName), "gpt")
            && StartsWith(ModelOrDefault(settings, modelName), "claude")
            && !Truthy(settings.anthropicApiKey) ==>
              r == Err("Anthropic API key not configured")
    ensures !StartsWith(ModelOrDefault(settings, modelName), "gpt")
            && !StartsWith(ModelOrDefault(settings, modelName), "claude") ==>
              r == Err("Unsupported model: " + ModelOrDefault(settings, modelName))
  {
    var model := ModelOrDefault(settings, modelName);
    if StartsWith(model, "gpt") then
      if Truthy(settings.openaiApiKey) then Ok(OpenAi(model, settings.openaiApiKey.value))
      else Err("OpenAI API key not configured")
    else if StartsWith(model, "claude") then
      if Truthy(settings.anthropicApiKey) then Ok(Anthropic(model, settings.anthropicApiKey.value))
      else Err("Anthropic API key not configured")
    else Err("Unsupported model: " + model)
  }

  /** With no model name the configured default decides the provider. */
  lemma GetLlmDefault(settings: Settings)
    ensures GetLlm(settings, None) == GetLlm(settings, Some(settings.defaultModel))
    ensures GetLlm(settings, Some("")) == GetLlm(settings, None)
  {
  }

  /** One API chat message as a LangChain message. */
  function ToLc(m: ChatMessage): LcMessage
  {
    match m.role
    case User => Human(m.content)
    case Assistant => Ai(m.content, [])
    case System => SystemMsg(m.content)
  }

  /** Reads a LangChain message back as an API chat message, when it is one
      (tool messages and AI messages with tool calls are not). */
  function FromLc(m: LcMessage): Option<ChatMessage>
  {
    match m
    case Human(c) => Some(ChatMessage(User, c))
    case Ai(c, calls) => if calls == [] then Some(ChatMessage(Assistant, c)) else None
    case SystemMsg(c) => Some(ChatMessage(System, c))
    case ToolMsg(_, _) => None
  }

  /** Conversion loses nothing: every converted message reads back as the
      original, so role and content are kept and no two messages merge. */
  lemma ToLcRoundTrip(m: ChatMessage)
    ensures FromLc(ToLc(m)) == Some(m)
    ensures ToLc(m).content == m.content
    ensures ToLc(m).SystemMsg? <==> m.role == System
  {
  }

  /** The conversion of a whole history, message by message. */
  function Converted(msgs: seq<ChatMessage>): seq<LcMessage>
  {
    seq(|msgs|, i requires 0 <= i < |msgs| => ToLc(msgs[i]))
  }

  /** `_convert_messages_to_langchain`: one LangChain message per API
      message, in order. */
  method ConvertMessages(msgs: seq<ChatMessage>) returns (out: seq<LcMessage>)
    ensures |out| == |msgs|
    ensures forall i :: 0 <= i < |msgs| ==> FromLc(out[i]) == Some(msgs[i])
    ensures out == Converted(msgs)
  {
    out := [];
    for i := 0 to |msgs|
      invariant |out| == i
      invariant forall k :: 0 <= k < i ==> out[k] == ToLc(msgs[k])
    {
      var m := msgs[i];
      match m.role {
        case User => out := out + [Human(m.content)];
        case Assistant => out := out + [Ai(m.content, [])];
        case System => out := out + [SystemMsg(m.content)];
      }
    }
    forall i | 0 <= i < |msgs| ensures FromLc(out[i]) == Some(msgs[i]) {
      ToLcRoundTrip(msgs[i]);
    }
  }

  predicate HasSystem(msgs: seq<LcMessage>) {
    exists i :: 0 <= i < |msgs| && msgs[i].SystemMsg?
  }

  /** The message list sent to the model: the prompt is put in front only
      when the list has no system message yet. */
  function InjectSystem(msgs: seq<LcMessage>, prompt: string): (r: seq<LcMessage>)
    ensures HasSystem(r)
    ensures r == msgs <==> HasSystem(msgs)
    ensures !HasSystem(msgs) ==> r[0] == SystemMsg(prompt) && r[1..] == msgs
  {
    if HasSystem(msgs) then msgs
    else
      var r := [SystemMsg(prompt)] + msgs;
      assert r[0].SystemMsg?;
      r
  }

  /** The AI message a reply stands for. */
  function ReplyMessage(reply: LlmReply): LcMessage
    requires reply.Replied?
  {
    Ai(reply.content, reply.toolCalls)
  }

  /** The messages of a sequence of updates, in order. */
  function UpdateMessages(updates: seq<NodeUpdate>): seq<LcMessage>
  {
    if updates == [] then []
    else UpdateMessages(updates[..|updates| - 1]) + updates[|updates| - 1].messages
  }

  /** The state's message list after the updates: the reducer appends
      each update's messages. */
  function FinalMessages(input: seq<LcMessage>, updates: seq<NodeUpdate>): seq<LcMessage>
  {
    input + UpdateMessages(updates)
  }
}
