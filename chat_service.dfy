/**
 * The plain chat service: a one-node graph ("chat") that injects a default
 * system prompt and asks the model, a non-streaming call that turns every
 * failure into an apology text, and a streaming call that emits only the
 * part of the reply not sent yet and ends with a final sentinel chunk.
 */
module ChatService {
  import opened Wrappers
  import opened Text
  import opened Config
  import opened ChatModels
  import opened Messages

  const DefaultSystemPrompt: string :=
    "당신은 도움이 되는 AI 어시스턴트입니다. 사용자의 질문에 정확하고 친절하게 답변해주세요."

  /** The text in front of the error when the service cannot answer. */
  const ApologyPrefix: string := "죄송합니다. 현재 AI 서비스에 연결할 수 없습니다. 오류: "

  /** The graph state: messages, conversation id and model name. */
  datatype ChatState = ChatState(messages: seq<LcMessage>, conversationId: string, modelName: string)

  /** `chat_node`: the update holds only the model's response; the injected
      prompt goes to the model but not into the state. Router and model
      failures surface as the raised error's text. */
  function ChatNode(settings: Settings, state: ChatState, llm: Llm): (r: Result<NodeUpdate>)
    ensures r.Ok? <==>
              GetLlm(settings, Some(state.modelName)).Ok?
              && llm(GetLlm(settings, Some(state.modelName)).value,
                     InjectSystem(state.messages, DefaultSystemPrompt)).Replied?
    ensures r.Ok? ==> r.value.node == "chat" && |r.value.messages| == 1 && r.value.messages[0].Ai?
    ensures r.Ok? ==>
              r.value.messages[0] == ReplyMessage(llm(GetLlm(settings, Some(state.modelName)).value,
                                                      InjectSystem(state.messages, DefaultSystemPrompt)))
  {
    match GetLlm(settings, Some(state.modelName))
    case Err(e) => Err(e)
    case Ok(provider) =>
      match llm(provider, InjectSystem(state.messages, DefaultSystemPrompt))
      case Failed(e) => Err(e)
      case Replied(content, calls) => Ok(NodeUpdate("chat", [Ai(content, calls)]))
  }

  /** One run of the single-node graph. */
  function RunChatGraph(settings: Settings, state: ChatState, llm: Llm): GraphRun
  {
    match ChatNode(settings, state, llm)
    case Ok(u) => GraphRun([u], Completed)
    case Err(e) => GraphRun([], Raised(e))
  }

  /** The graph never stores the system prompt: if the input has no system
      message, neither has the state after the run. */
  lemma RunChatGraphAddsNoSystem(settings: Settings, state: ChatState, llm: Llm)
    requires !HasSystem(state.messages)
    ensures var run := RunChatGraph(settings, state, llm);
            !HasSystem(FinalMessages(state.messages, run.updates))
  {
    var run := RunChatGraph(settings, state, llm);
    if run.outcome.Completed? {
      var u := run.updates[0];
      assert run.updates[..0] == [];
      assert UpdateMessages(run.updates) == u.messages;
      var f := FinalMessages(state.messages, run.updates);
      assert f == state.messages + u.messages;
      forall i | 0 <= i < |f| ensures !f[i].SystemMsg? {
        if i >= |state.messages| {
          assert f[i] == u.messages[0];
        }
      }
    } else {
      assert run.updates == [];
      assert FinalMessages(state.messages, run.updates) == state.messages;
    }
  }

  /** The messages a call starts from: the converted history when a
      non-empty one is given (the separate message is not added), else
      just the new message. */
  function InputMessages(message: string, history: Option<seq<ChatMessage>>): (r: seq<LcMessage>)
  {
    if history.Some? && history.value != [] then Converted(history.value)
    else [Human(message)]
  }

  lemma InputMessagesSpec(message: string, history: Option<seq<ChatMessage>>)
    ensures history.Some? && history.value != [] ==>
              |InputMessages(message, history)| == |history.value|
              && forall i :: 0 <= i < |history.value| ==>
                   FromLc(InputMessages(message, history)[i]) == Some(history.value[i])
    ensures history.None? || history.value == [] ==> InputMessages(message, history) == [Human(message)]
  {
    if history.Some? && history.value != [] {
      forall i | 0 <= i < |history.value|
        ensures FromLc(InputMessages(message, history)[i]) == Some(history.value[i])
      {
        ToLcRoundTrip(history.value[i]);
      }
    }
  }

  /** The state a call builds; a missing or empty conversation id is replaced
      by the freshly minted `freshId`. */
  function InitialState(settings: Settings, message: string, history: Option<seq<ChatMessage>>,
                        conversationId: Option<string>, model: Option<string>, freshId: string): ChatState
  {
    ChatState(InputMessages(message, history), StrOr(conversationId, freshId), ModelOrDefault(settings, model))
  }

  /** `ChatService.chat`: the content of the last message after the run, or
      the apology with the error text when anything failed; it never raises. */
  function Chat(settings: Settings, llm: Llm, message: string, history: Option<seq<ChatMessage>>,
                conversationId: Option<string>, model: Option<string>, freshId: string): (reply: string)
    ensures var state := InitialState(settings, message, history, conversationId, model, freshId);
            var router := GetLlm(settings, Some(state.modelName));
            && (router.Err? ==> reply == ApologyPrefix + router.error)
            && (router.Ok? && llm(router.value, InjectSystem(state.messages, DefaultSystemPrompt)).Failed? ==>
                  reply == ApologyPrefix + llm(router.value, InjectSystem(state.messages, DefaultSystemPrompt)).error)
            && (router.Ok? && llm(router.value, InjectSystem(state.messages, DefaultSystemPrompt)).Replied? ==>
                  reply == llm(router.value, InjectSystem(state.messages, DefaultSystemPrompt)).content)
  {
    var state := InitialState(settings, message, history, conversationId, model, freshId);
    var run := RunChatGraph(settings, state, llm);
    match run.outcome
    case Raised(e) => ApologyPrefix + e
    case Completed =>
      var final := FinalMessages(state.messages, run.updates);
      assert run.updates[..0] == [];
      final[|final| - 1].content
  }

  /** `content[n:]` in Python: empty once `n` is past the end. */
  function SliceFrom(s: string, n: nat): (r: string)
    ensures n <= |s| ==> s == s[..n] + r
    ensures n >= |s| ==> r == ""
  {
    if n <= |s| then s[n..] else ""
  }

  /** The content a "chat" update shows: its last message's, when it has any. */
  function Observed(u: NodeUpdate): Option<string>
  {
    if u.node == "chat" && u.messages != [] then Some(u.messages[|u.messages| - 1].content) else None
  }

  /** `accumulated_content` after the updates: the latest content seen. */
  function Accumulated(updates: seq<NodeUpdate>): string
  {
    if updates == [] then ""
    else
      var last := updates[|updates| - 1];
      if Observed(last).Some? then Observed(last).value else Accumulated(updates[..|updates| - 1])
  }

  /** The chunk one update produces after `seen`: the unseen suffix of a
      changed content, and nothing for unchanged content or other nodes. */
  function DeltaStep(seen: string, u: NodeUpdate, cid: string): (r: seq<StreamChunk>)
    ensures |r| <= 1
    ensures r == [] <==> Observed(u).None? || Observed(u).value == seen
    ensures r != [] ==> r[0] == Chunk(SliceFrom(Observed(u).value, |seen|), cid)
  {
    var o := Observed(u);
    if o.Some? && o.value != seen then [Chunk(SliceFrom(o.value, |seen|), cid)] else []
  }

  /** The non-final chunks of a stream. */
  function DeltaChunks(updates: seq<NodeUpdate>, cid: string): seq<StreamChunk>
  {
    if updates == [] then []
    else
      var prefix := updates[..|updates| - 1];
      DeltaChunks(prefix, cid) + DeltaStep(Accumulated(prefix), updates[|updates| - 1], cid)
  }

  /** The delta loop of `stream_chat`. */
  method StreamDeltas(updates: seq<NodeUpdate>, cid: string) returns (chunks: seq<StreamChunk>, accumulated: string)
    ensures chunks == DeltaChunks(updates, cid)
    ensures accumulated == Accumulated(updates)
  {
    chunks, accumulated := [], "";
    var i := 0;
    while i < |updates|
      invariant 0 <= i <= |updates|
      invariant chunks == DeltaChunks(updates[..i], cid)
      invariant accumulated == Accumulated(updates[..i])
    {
      var u := updates[i];
      assert updates[..i + 1][..i] == updates[..i];
      if u.node == "chat" {
        var messages := u.messages;
        if messages != [] {
          var content := messages[|messages| - 1].content;
          if content != accumulated {
            var newContent := SliceFrom(content, |accumulated|);
            accumulated := content;
            chunks := chunks + [Chunk(newContent, cid)];
          }
        }
      }
      i := i + 1;
    }
    assert updates[..i] == updates;
  }

  /** The chunk that closes a stream: an empty sentinel, or the apology. */
  function EndChunk(outcome: Outcome, cid: string): StreamChunk
  {
    match outcome
    case Completed => Chunk("", cid, true)
    case Raised(e) => Chunk(ApologyPrefix + e, cid, true)
  }

  /** Everything `stream_chat` yields for one call. */
  function StreamChatChunks(settings: Settings, llm: Llm, message: string, history: Option<seq<ChatMessage>>,
                            conversationId: Option<string>, model: Option<string>, freshId: string): seq<StreamChunk>
  {
    var state := InitialState(settings, message, history, conversationId, model, freshId);
    var run := RunChatGraph(settings, state, llm);
    DeltaChunks(run.updates, state.conversationId) + [EndChunk(run.outcome, state.conversationId)]
  }

  /** `ChatService.stream_chat`. */
  method StreamChat(settings: Settings, llm: Llm, message: string, history: Option<seq<ChatMessage>>,
                    conversationId: Option<string>, model: Option<string>, freshId: string)
    returns (chunks: seq<StreamChunk>)
    ensures chunks == StreamChatChunks(settings, llm, message, history, conversationId, model, freshId)
  {
    var cid := if Truthy(conversationId) then conversationId.value else freshId;
    var input: seq<LcMessage>;
    if history.Some? && history.value != [] {
      input := ConvertMessages(history.value);
    } else {
      input := [Human(message)];
    }
    var state := ChatState(input, cid, ModelOrDefault(settings, model));
    var run := RunChatGraph(settings, state, llm);
    var deltas, _ := StreamDeltas(run.updates, cid);
    chunks := deltas + [EndChunk(run.outcome, cid)];
  }

  function Concat(chunks: seq<StreamChunk>): string
  {
    if chunks == [] then "" else Concat(chunks[..|chunks| - 1]) + chunks[|chunks| - 1].content
  }

  predicate IsPrefix(p: string, s: string) {
    |p| <= |s| && s[..|p|] == p
  }

  /** Every observed content extends the content seen before it. */
  predicate Growing(updates: seq<NodeUpdate>)
  {
    updates == []
    || (var prefix := updates[..|updates| - 1];
        && Growing(prefix)
        && (Observed(updates[|updates| - 1]).Some? ==>
              IsPrefix(Accumulated(prefix), Observed(updates[|updates| - 1]).value)))
  }

  /** When each content extends the previous one, the emitted deltas put
      together are exactly the latest content. */
  lemma {:induction false} DeltasConcatenate(updates: seq<NodeUpdate>, cid: string)
    requires Growing(updates)
    ensures Concat(DeltaChunks(updates, cid)) == Accumulated(updates)
  {
    if updates != [] {
      var prefix := updates[..|updates| - 1];
      var last := updates[|updates| - 1];
      DeltasConcatenate(prefix, cid);
      var step := DeltaStep(Accumulated(prefix), last, cid);
      var all := DeltaChunks(prefix, cid) + step;
      if step != [] {
        assert all[..|all| - 1] == DeltaChunks(prefix, cid);
        var seen := Accumulated(prefix);
        var c := Observed(last).value;
        assert c == seen + c[|seen|..];
      } else {
        assert all == DeltaChunks(prefix, cid);
      }
    }
  }

  /** Every delta chunk is non-final and carries the conversation id. */
  lemma {:induction false} DeltaChunksShape(updates: seq<NodeUpdate>, cid: string)
    ensures |DeltaChunks(updates, cid)| <= |updates|
    ensures forall k :: 0 <= k < |DeltaChunks(updates, cid)| ==>
              !DeltaChunks(updates, cid)[k].isFinal && DeltaChunks(updates, cid)[k].conversationId == cid
  {
    if updates != [] {
      DeltaChunksShape(updates[..|updates| - 1], cid);
    }
  }

  /** A stream ends with exactly one final chunk: the empty sentinel after a
      normal run, the apology with the error otherwise; every chunk carries
      the call's conversation id, which is never empty when a fresh one is. */
  lemma StreamChatEnds(settings: Settings, llm: Llm, message: string, history: Option<seq<ChatMessage>>,
                       conversationId: Option<string>, model: Option<string>, freshId: string)
    ensures var chunks := StreamChatChunks(settings, llm, message, history, conversationId, model, freshId);
            var cid := StrOr(conversationId, freshId);
            var run := RunChatGraph(settings, InitialState(settings, message, history, conversationId, model, freshId), llm);
            && chunks != []
            && chunks[|chunks| - 1].isFinal
            && (forall k :: 0 <= k < |chunks| - 1 ==> !chunks[k].isFinal)
            && (forall k :: 0 <= k < |chunks| ==> chunks[k].conversationId == cid)
            && (run.outcome.Completed? ==> chunks[|chunks| - 1].content == "")
            && (run.outcome.Raised? ==> chunks == [Chunk(ApologyPrefix + run.outcome.error, cid, true)])
            && (freshId != "" ==> cid != "")
  {
    var state := InitialState(settings, message, history, conversationId, model, freshId);
    var run := RunChatGraph(settings, state, llm);
    DeltaChunksShape(run.updates, state.conversationId);
  }

  /** Streaming and non-streaming agree: the deltas of a successful stream
      put together are the reply `chat` returns, and a failed stream's only
      chunk carries the text `chat` returns. */
  lemma StreamMatchesChat(settings: Settings, llm: Llm, message: string, history: Option<seq<ChatMessage>>,
                          conversationId: Option<string>, model: Option<string>, freshId: string)
    ensures var chunks := StreamChatChunks(settings, llm, message, history, conversationId, model, freshId);
            var reply := Chat(settings, llm, message, history, conversationId, model, freshId);
            && (chunks[|chunks| - 1].content == "" ==> Concat(chunks[..|chunks| - 1]) == reply)
            && (chunks[|chunks| - 1].content != "" ==> chunks[|chunks| - 1].content == reply)
  {
    var state := InitialState(settings, message, history, conversationId, model, freshId);
    var run := RunChatGraph(settings, state, llm);
    var chunks := StreamChatChunks(settings, llm, message, history, conversationId, model, freshId);
    if run.outcome.Completed? {
      var u := run.updates[0];
      assert run.updates == [u];
      assert run.updates[..0] == [];
      assert Growing(run.updates) by {
        assert Accumulated([]) == "";
        assert IsPrefix("", Observed(u).value);
      }
      DeltasConcatenate(run.updates, state.conversationId);
      assert chunks[..|chunks| - 1] == DeltaChunks(run.updates, state.conversationId);
      assert UpdateMessages(run.updates) == u.messages;
    } else {
      assert run.updates == [];
      assert ApologyPrefix != "";
    }
  }
}
