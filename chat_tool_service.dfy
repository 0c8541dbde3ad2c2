/**
 * The profile-tool chat service: an "agent" node that asks the model with
 * a profile-specific system prompt and the four profile tools bound, a
 * "tools" node that runs the requested tool calls, and a stream that turns
 * each node update into readable chunks ("calling tool", "AI answer",
 * "tool result") and ends with a final sentinel or one error chunk.
 */
module ChatToolService {
  import opened Wrappers
  import opened Text
  import opened Config
  import opened ChatModels
  import opened Messages

  /** The tools bound to the model, in order. */
  const ToolNames: seq<string> :=
    ["get_profile_info", "get_careers_by_profile", "get_projects_by_profile", "get_profile_with_full_details"]

  const AgentPromptHead: string := "당신은 전문 프로필 관리 AI 어시스턴트입니다.\n현재 프로필 ID: "

  const AgentPromptTail: string :=
    "\n" +
    "\n" +
    "사용 가능한 도구:\n" +
    "1. get_profile_info: 기본 프로필 정보 조회 (이름, 이메일, 연락처, 자기소개)\n" +
    "2. get_careers_by_profile: 경력사항 조회 (회사, 직책, 근무기간, 업무내용)\n" +
    "3. get_projects_by_profile: 프로젝트 조회 (프로젝트명, 기간, 설명, 기술스택)\n" +
    "4. get_profile_with_full_details: 모든 정보를 한번에 조회 (기본정보 + 경력 + 프로젝트)\n" +
    "\n" +
    "응답 가이드라인:\n" +
    "- 사용자가 \"프로필 정보\", \"기본 정보\"를 물으면 → get_profile_info 사용\n" +
    "- 사용자가 \"경력\", \"회사\", \"직장\", \"커리어\"를 물으면 → get_careers_by_profile 사용  \n" +
    "- 사용자가 \"프로젝트\", \"포트폴리오\", \"작업\"을 물으면 → get_projects_by_profile 사용\n" +
    "- 사용자가 \"전체\", \"모든\", \"상세\", \"다 보여줘\"를 물으면 → get_profile_with_full_details 사용\n" +
    "- 조회된 정보를 정리하여 사용자에게 친근하게 전달\n" +
    "- 정보가 없거나 오류가 발생하면 명확하게 안내\n" +
    "- 항상 정중하고 도움이 되는 톤으로 응답\n" +
    "- 사용자는 해당 프로필에 궁금한게 있어 질문을 하는거라 친절하게 응답"

  /** The agent's system prompt, naming the profile the conversation is about. */
  function AgentPrompt(profileId: string): (p: string)
    ensures |p| == |AgentPromptHead| + |profileId| + |AgentPromptTail|
    ensures p[|AgentPromptHead|..|AgentPromptHead| + |profileId|] == profileId
  {
    var p := AgentPromptHead + profileId + AgentPromptTail;
    assert p[|AgentPromptHead|..|AgentPromptHead| + |profileId|] == profileId;
    p
  }

  const ToolCallingPrefix: string := "도구 호출 중: "
  const AiResponsePrefix: string := "AI 응답:\n"
  const ToolResultPrefix: string := "도구 실행 결과:\n"
  const ApologyPrefix: string := "죄송합니다. 프로필 정보 조회 중 오류가 발생했습니다: "

  /** The graph state. */
  datatype ToolState = ToolState(messages: seq<LcMessage>, conversationId: string, profileId: string, modelName: string)

  /** What running one tool call returns (the tool node's result text). */
  type ToolExec = ToolCall -> string

  /** `agent_node`: the update holds only the model's response. */
  function AgentNode(settings: Settings, state: ToolState, llm: Llm): (r: Result<NodeUpdate>)
    ensures r.Ok? ==> r.value.node == "agent" && |r.value.messages| == 1 && r.value.messages[0].Ai?
  {
    match GetLlm(settings, Some(state.modelName))
    case Err(e) => Err(e)
    case Ok(provider) =>
      match llm(provider, InjectSystem(state.messages, AgentPrompt(state.profileId)))
      case Failed(e) => Err(e)
      case Replied(content, calls) => Ok(NodeUpdate("agent", [Ai(content, calls)]))
  }

  /** The agent asks the model with the agent prompt put in front when the
      state has no system message, and its update is exactly the response;
      a router error or a model failure is raised with its text. */
  lemma AgentNodeSpec(settings: Settings, state: ToolState, llm: Llm)
    ensures var router := GetLlm(settings, Some(state.modelName));
            var sent := InjectSystem(state.messages, AgentPrompt(state.profileId));
            var r := AgentNode(settings, state, llm);
            && (router.Err? ==> r == Err(router.error))
            && (router.Ok? && llm(router.value, sent).Failed? ==> r == Err(llm(router.value, sent).error))
            && (router.Ok? && llm(router.value, sent).Replied? ==>
                  r == Ok(NodeUpdate("agent", [ReplyMessage(llm(router.value, sent))])))
  {
  }

  datatype Route = ToTools | ToEnd

  /** `should_continue`: on to the tools exactly when the last message is an
      AI message asking for at least one tool call. */
  function ShouldContinue(messages: seq<LcMessage>): (r: Route)
    requires messages != []
    ensures r == ToTools <==> messages[|messages| - 1].Ai? && messages[|messages| - 1].toolCalls != []
  {
    var last := messages[|messages| - 1];
    if last.Ai? && last.toolCalls != [] then ToTools else ToEnd
  }

  /** The tool messages for a list of calls: one per call, in order, each
      answering its call's id. */
  function ToolResults(calls: seq<ToolCall>, exec: ToolExec): (r: seq<LcMessage>)
    ensures |r| == |calls|
    ensures forall i :: 0 <= i < |calls| ==> r[i] == ToolMsg(exec(calls[i]), calls[i].id)
  {
    seq(|calls|, i requires 0 <= i < |calls| => ToolMsg(exec(calls[i]), calls[i].id))
  }

  /** The tool node's update. */
  function ToolNode(calls: seq<ToolCall>, exec: ToolExec): NodeUpdate
  {
    NodeUpdate("tools", ToolResults(calls, exec))
  }

  /** The text of the error a run raises when its agent/tool rounds exceed
      the fuel; the bound is a modelling device, not part of the service. */
  const OutOfFuel: string := "agent/tool round limit reached"

  /** A run of the agent/tools loop, at most `fuel` agent steps. */
  function RunToolGraph(settings: Settings, state: ToolState, llm: Llm, exec: ToolExec, fuel: nat): GraphRun
    decreases fuel
  {
    if fuel == 0 then GraphRun([], Raised(OutOfFuel))
    else
      match AgentNode(settings, state, llm)
      case Err(e) => GraphRun([], Raised(e))
      case Ok(u) =>
        var messages := state.messages + u.messages;
        if ShouldContinue(messages) == ToEnd then GraphRun([u], Completed)
        else
          var t := ToolNode(u.messages[0].toolCalls, exec);
          var rest := RunToolGraph(settings, state.(messages := messages + t.messages), llm, exec, fuel - 1);
          GraphRun([u, t] + rest.updates, rest.outcome)
  }

  /** An agent update: a single AI message. */
  predicate AgentStep(u: NodeUpdate) {
    u.node == "agent" && |u.messages| == 1 && u.messages[0].Ai?
  }

  /** A tool update answering, in order, exactly the calls of the agent
      update `a` before it. */
  predicate ToolStep(a: NodeUpdate, t: NodeUpdate, exec: ToolExec)
    requires AgentStep(a)
  {
    t.node == "tools" && a.messages[0].toolCalls != [] && t.messages == ToolResults(a.messages[0].toolCalls, exec)
  }

  /** Agent and tool updates alternate, starting with the agent. */
  predicate Alternating(updates: seq<NodeUpdate>, exec: ToolExec)
    decreases |updates|
  {
    updates == []
    || (&& AgentStep(updates[0])
        && (|updates| == 1 || (ToolStep(updates[0], updates[1], exec) && Alternating(updates[2..], exec))))
  }

  /** The run ended on an agent answer with no tool calls. */
  predicate EndsOnAnswer(updates: seq<NodeUpdate>) {
    updates != [] && AgentStep(updates[|updates| - 1]) && updates[|updates| - 1].messages[0].toolCalls == []
  }

  /** One agent round that asks for tools: the run is the agent update, the
      tool update answering it, then the run from the extended state. */
  lemma RunToolGraphRound(settings: Settings, state: ToolState, llm: Llm, exec: ToolExec, fuel: nat)
    requires fuel > 0 && AgentNode(settings, state, llm).Ok?
    requires ShouldContinue(state.messages + AgentNode(settings, state, llm).value.messages) == ToTools
    ensures var u := AgentNode(settings, state, llm).value;
            var t := ToolNode(u.messages[0].toolCalls, exec);
            var rest := RunToolGraph(settings, state.(messages := state.messages + u.messages + t.messages), llm, exec, fuel - 1);
            && AgentStep(u) && ToolStep(u, t, exec)
            && RunToolGraph(settings, state, llm, exec, fuel) == GraphRun([u, t] + rest.updates, rest.outcome)
  {
  }

  /** A run that ends without asking for tools is that one agent update. */
  lemma RunToolGraphLast(settings: Settings, state: ToolState, llm: Llm, exec: ToolExec, fuel: nat)
    requires fuel > 0 && AgentNode(settings, state, llm).Ok?
    requires ShouldContinue(state.messages + AgentNode(settings, state, llm).value.messages) == ToEnd
    ensures EndsOnAnswer([AgentNode(settings, state, llm).value])
    ensures RunToolGraph(settings, state, llm, exec, fuel) == GraphRun([AgentNode(settings, state, llm).value], Completed)
  {
  }

  /** Agent and tool updates alternate, starting with the agent, and each
      tool update answers exactly the calls of the agent update before it. */
  lemma {:induction false} RunToolGraphAlternates(settings: Settings, state: ToolState, llm: Llm, exec: ToolExec, fuel: nat)
    ensures Alternating(RunToolGraph(settings, state, llm, exec, fuel).updates, exec)
    decreases fuel
  {
    if fuel > 0 && AgentNode(settings, state, llm).Ok? {
      var u := AgentNode(settings, state, llm).value;
      if ShouldContinue(state.messages + u.messages) == ToTools {
        RunToolGraphRound(settings, state, llm, exec, fuel);
        var t := ToolNode(u.messages[0].toolCalls, exec);
        var next := state.(messages := state.messages + u.messages + t.messages);
        RunToolGraphAlternates(settings, next, llm, exec, fuel - 1);
        var rest := RunToolGraph(settings, next, llm, exec, fuel - 1);
        assert ([u, t] + rest.updates)[2..] == rest.updates;
      } else {
        RunToolGraphLast(settings, state, llm, exec, fuel);
      }
    }
  }

  /** A completed run ends on an agent answer with no tool calls. */
  lemma {:induction false} RunToolGraphOutcome(settings: Settings, state: ToolState, llm: Llm, exec: ToolExec, fuel: nat)
    ensures RunToolGraph(settings, state, llm, exec, fuel).outcome.Completed? ==>
              EndsOnAnswer(RunToolGraph(settings, state, llm, exec, fuel).updates)
    decreases fuel
  {
    if fuel > 0 && AgentNode(settings, state, llm).Ok? {
      var u := AgentNode(settings, state, llm).value;
      if ShouldContinue(state.messages + u.messages) == ToTools {
        RunToolGraphRound(settings, state, llm, exec, fuel);
        var t := ToolNode(u.messages[0].toolCalls, exec);
        var next := state.(messages := state.messages + u.messages + t.messages);
        RunToolGraphOutcome(settings, next, llm, exec, fuel - 1);
        var rest := RunToolGraph(settings, next, llm, exec, fuel - 1);
        var all := [u, t] + rest.updates;
        if rest.outcome.Completed? {
          assert all[|all| - 1] == rest.updates[|rest.updates| - 1];
        }
      } else {
        RunToolGraphLast(settings, state, llm, exec, fuel);
      }
    }
  }

  /** An exception can only come from an agent step: a run that raised
      holds whole agent/tool rounds only. */
  lemma {:induction false} RunToolGraphRaised(settings: Settings, state: ToolState, llm: Llm, exec: ToolExec, fuel: nat)
    ensures RunToolGraph(settings, state, llm, exec, fuel).outcome.Raised? ==>
              |RunToolGraph(settings, state, llm, exec, fuel).updates| % 2 == 0
    decreases fuel
  {
    if fuel > 0 && AgentNode(settings, state, llm).Ok? {
      var u := AgentNode(settings, state, llm).value;
      if ShouldContinue(state.messages + u.messages) == ToTools {
        RunToolGraphRound(settings, state, llm, exec, fuel);
        var t := ToolNode(u.messages[0].toolCalls, exec);
        var next := state.(messages := state.messages + u.messages + t.messages);
        RunToolGraphRaised(settings, next, llm, exec, fuel - 1);
      } else {
        RunToolGraphLast(settings, state, llm, exec, fuel);
      }
    }
  }

  /** The messages a call starts from: the converted history, if any,
      followed by the new user message. */
  function ToolInput(message: string, history: Option<seq<ChatMessage>>): seq<LcMessage>
  {
    (if history.Some? && history.value != [] then Converted(history.value) else []) + [Human(message)]
  }

  /** The new message is always last, after the whole history in order. */
  lemma ToolInputSpec(message: string, history: Option<seq<ChatMessage>>)
    ensures var input := ToolInput(message, history);
            && input[|input| - 1] == Human(message)
            && (history.Some? ==> |input| == |history.value| + 1)
            && (history.Some? ==> forall i :: 0 <= i < |history.value| ==> FromLc(input[i]) == Some(history.value[i]))
            && (history.None? ==> input == [Human(message)])
  {
    if history.Some? {
      forall i | 0 <= i < |history.value| ensures FromLc(ToolInput(message, history)[i]) == Some(history.value[i]) {
        ToLcRoundTrip(history.value[i]);
      }
    }
  }

  /** One "calling tool" chunk per call, in order. */
  function CallChunks(calls: seq<ToolCall>, cid: string): seq<StreamChunk>
  {
    if calls == [] then []
    else CallChunks(calls[..|calls| - 1], cid) + [Chunk(ToolCallingPrefix + calls[|calls| - 1].name, cid)]
  }

  /** The chunks one message of a node update yields: tool calls take
      precedence over the text of an AI message, blank text yields nothing,
      and only AI messages of the agent and tool messages of the tool node
      count. */
  function MessageChunks(node: string, m: LcMessage, cid: string): seq<StreamChunk>
  {
    if node == "agent" && m.Ai? then
      if m.toolCalls != [] then CallChunks(m.toolCalls, cid)
      else if Strip(m.content) != "" then [Chunk(AiResponsePrefix + m.content, cid)]
      else []
    else if node == "tools" && m.ToolMsg? then [Chunk(ToolResultPrefix + m.content, cid)]
    else []
  }

  function UpdateChunks(node: string, messages: seq<LcMessage>, cid: string): seq<StreamChunk>
  {
    if messages == [] then []
    else UpdateChunks(node, messages[..|messages| - 1], cid) + MessageChunks(node, messages[|messages| - 1], cid)
  }

  function UpdatesChunks(updates: seq<NodeUpdate>, cid: string): seq<StreamChunk>
  {
    if updates == [] then []
    else
      var u := updates[|updates| - 1];
      UpdatesChunks(updates[..|updates| - 1], cid) + UpdateChunks(u.node, u.messages, cid)
  }

  /** The chunks of one message, appended to `chunks`. */
  method AppendMessageChunks(chunks: seq<StreamChunk>, node: string, msg: LcMessage, cid: string)
    returns (out: seq<StreamChunk>)
    ensures out == chunks + MessageChunks(node, msg, cid)
  {
    out := chunks;
    if node == "agent" {
      if msg.Ai? {
        if msg.toolCalls != [] {
          for k := 0 to |msg.toolCalls|
            invariant out == chunks + CallChunks(msg.toolCalls[..k], cid)
          {
            assert msg.toolCalls[..k + 1][..k] == msg.toolCalls[..k];
            out := out + [Chunk(ToolCallingPrefix + msg.toolCalls[k].name, cid)];
          }
          assert msg.toolCalls[..|msg.toolCalls|] == msg.toolCalls;
        } else if msg.content != "" && Strip(msg.content) != "" {
          out := out + [Chunk(AiResponsePrefix + msg.content, cid)];
        }
      }
    } else if node == "tools" {
      if msg.ToolMsg? {
        out := out + [Chunk(ToolResultPrefix + msg.content, cid)];
      }
    }
  }

  lemma UpdatesChunksSnoc(updates: seq<NodeUpdate>, i: nat, cid: string)
    requires i < |updates|
    ensures UpdatesChunks(updates[..i + 1], cid) ==
              UpdatesChunks(updates[..i], cid) + UpdateChunks(updates[i].node, updates[i].messages, cid)
  {
    assert updates[..i + 1][..i] == updates[..i];
  }

  lemma UpdateChunksSnoc(node: string, messages: seq<LcMessage>, j: nat, cid: string)
    requires j < |messages|
    ensures UpdateChunks(node, messages[..j + 1], cid) ==
              UpdateChunks(node, messages[..j], cid) + MessageChunks(node, messages[j], cid)
  {
    assert messages[..j + 1][..j] == messages[..j];
  }

  /** The chunks of one update's messages, appended to `chunks`. */
  method AppendUpdateChunks(chunks: seq<StreamChunk>, u: NodeUpdate, cid: string) returns (out: seq<StreamChunk>)
    ensures out == chunks + UpdateChunks(u.node, u.messages, cid)
  {
    out := chunks;
    for j := 0 to |u.messages|
      invariant out == chunks + UpdateChunks(u.node, u.messages[..j], cid)
    {
      UpdateChunksSnoc(u.node, u.messages, j, cid);
      out := AppendMessageChunks(out, u.node, u.messages[j], cid);
    }
    assert u.messages[..|u.messages|] == u.messages;
  }

  /** The event loop of `stream_chat_with_profile_tools`: every message of
      every update, in order. */
  method AssembleChunks(updates: seq<NodeUpdate>, cid: string) returns (chunks: seq<StreamChunk>)
    ensures chunks == UpdatesChunks(updates, cid)
  {
    chunks := [];
    for i := 0 to |updates|
      invariant chunks == UpdatesChunks(updates[..i], cid)
    {
      UpdatesChunksSnoc(updates, i, cid);
      chunks := AppendUpdateChunks(chunks, updates[i], cid);
    }
    assert updates[..|updates|] == updates;
  }

  /** The "calling tool" chunks name the calls one by one, in order. */
  lemma {:induction false} CallChunksSpec(calls: seq<ToolCall>, cid: string)
    ensures |CallChunks(calls, cid)| == |calls|
    ensures forall i :: 0 <= i < |calls| ==> CallChunks(calls, cid)[i] == Chunk(ToolCallingPrefix + calls[i].name, cid)
  {
    if calls != [] {
      CallChunksSpec(calls[..|calls| - 1], cid);
    }
  }

  /** A tool update yields one "tool result" chunk per tool message, in order. */
  lemma {:induction false} ToolUpdateChunks(results: seq<LcMessage>, cid: string)
    requires forall i :: 0 <= i < |results| ==> results[i].ToolMsg?
    ensures |UpdateChunks("tools", results, cid)| == |results|
    ensures forall i :: 0 <= i < |results| ==>
              UpdateChunks("tools", results, cid)[i] == Chunk(ToolResultPrefix + results[i].content, cid)
  {
    if results != [] {
      ToolUpdateChunks(results[..|results| - 1], cid);
    }
  }

  /** An agent message asking for tools yields exactly the "calling tool"
      chunks and never its text. */
  lemma AgentCallChunks(content: string, calls: seq<ToolCall>, cid: string)
    requires calls != []
    ensures |UpdateChunks("agent", [Ai(content, calls)], cid)| == |calls|
    ensures forall i :: 0 <= i < |calls| ==>
              UpdateChunks("agent", [Ai(content, calls)], cid)[i].content == ToolCallingPrefix + calls[i].name
  {
    assert [Ai(content, calls)][..0] == [];
    assert UpdateChunks("agent", [Ai(content, calls)], cid) == CallChunks(calls, cid);
    CallChunksSpec(calls, cid);
  }

  /** An agent message without tool calls yields the answer chunk exactly
      when its text is not blank. */
  lemma AgentAnswerChunks(content: string, cid: string)
    ensures IsBlank(content) ==> UpdateChunks("agent", [Ai(content, [])], cid) == []
    ensures !IsBlank(content) ==> UpdateChunks("agent", [Ai(content, [])], cid) == [Chunk(AiResponsePrefix + content, cid)]
  {
    assert [Ai(content, [])][..0] == [];
    assert UpdateChunks("agent", [Ai(content, [])], cid) == MessageChunks("agent", Ai(content, []), cid);
    StripEmptyIffBlank(content);
  }

  function EndChunk(outcome: Outcome, cid: string): StreamChunk
  {
    match outcome
    case Completed => Chunk("", cid, true)
    case Raised(e) => Chunk(ApologyPrefix + e, cid, true)
  }

  /** The state a call builds; a missing or empty conversation id is
      replaced by the freshly minted `freshId`. */
  function InitialState(settings: Settings, message: string, profileId: string, history: Option<seq<ChatMessage>>,
                        conversationId: Option<string>, model: Option<string>, freshId: string): ToolState
  {
    ToolState(ToolInput(message, history), StrOr(conversationId, freshId), profileId, ModelOrDefault(settings, model))
  }

  /** Everything the tool stream yields: the chunks of the updates produced
      before the run ended, then the sentinel or the error chunk. */
  function ToolStreamChunks(settings: Settings, llm: Llm, exec: ToolExec, fuel: nat, message: string, profileId: string,
                            history: Option<seq<ChatMessage>>, conversationId: Option<string>, model: Option<string>,
                            freshId: string): seq<StreamChunk>
  {
    var state := InitialState(settings, message, profileId, history, conversationId, model, freshId);
    StreamOf(RunToolGraph(settings, state, llm, exec, fuel), state.conversationId)
  }

  /** The chunks of a run's updates followed by its closing chunk. */
  function StreamOf(run: GraphRun, cid: string): seq<StreamChunk>
  {
    UpdatesChunks(run.updates, cid) + [EndChunk(run.outcome, cid)]
  }

  /** `ChatToolService.stream_chat_with_profile_tools`. */
  method StreamChatWithProfileTools(settings: Settings, llm: Llm, exec: ToolExec, fuel: nat, message: string,
                                    profileId: string, history: Option<seq<ChatMessage>>,
                                    conversationId: Option<string>, model: Option<string>, freshId: string)
    returns (chunks: seq<StreamChunk>)
    ensures chunks == ToolStreamChunks(settings, llm, exec, fuel, message, profileId, history, conversationId, model, freshId)
  {
    var cid := if Truthy(conversationId) then conversationId.value else freshId;
    var input: seq<LcMessage>;
    if history.Some? && history.value != [] {
      input := ConvertMessages(history.value);
      input := input + [Human(message)];
    } else {
      input := [Human(message)];
    }
    assert input == ToolInput(message, history);
    var state := ToolState(input, cid, profileId, ModelOrDefault(settings, model));
    assert state == InitialState(settings, message, profileId, history, conversationId, model, freshId);
    var run := RunToolGraph(settings, state, llm, exec, fuel);
    var body := AssembleChunks(run.updates, cid);
    chunks := body + [EndChunk(run.outcome, cid)];
  }

  lemma {:induction false} CallChunksShape(calls: seq<ToolCall>, cid: string)
    ensures forall k :: 0 <= k < |CallChunks(calls, cid)| ==>
              !CallChunks(calls, cid)[k].isFinal && CallChunks(calls, cid)[k].conversationId == cid
  {
    CallChunksSpec(calls, cid);
  }

  lemma {:induction false} UpdateChunksShape(node: string, messages: seq<LcMessage>, cid: string)
    ensures forall k :: 0 <= k < |UpdateChunks(node, messages, cid)| ==>
              !UpdateChunks(node, messages, cid)[k].isFinal && UpdateChunks(node, messages, cid)[k].conversationId == cid
  {
    if messages != [] {
      UpdateChunksShape(node, messages[..|messages| - 1], cid);
      var m := messages[|messages| - 1];
      if node == "agent" && m.Ai? && m.toolCalls != [] {
        CallChunksShape(m.toolCalls, cid);
      }
    }
  }

  lemma {:induction false} UpdatesChunksShape(updates: seq<NodeUpdate>, cid: string)
    ensures forall k :: 0 <= k < |UpdatesChunks(updates, cid)| ==>
              !UpdatesChunks(updates, cid)[k].isFinal && UpdatesChunks(updates, cid)[k].conversationId == cid
  {
    if updates != [] {
      UpdatesChunksShape(updates[..|updates| - 1], cid);
      var u := updates[|updates| - 1];
      UpdateChunksShape(u.node, u.messages, cid);
    }
  }

  /** The stream ends with exactly one final chunk: the empty sentinel after
      a completed run, the apology with the error after an exception, and
      nothing after it; every chunk carries the call's conversation id. */
  lemma ToolStreamEnds(settings: Settings, llm: Llm, exec: ToolExec, fuel: nat, message: string, profileId: string,
                       history: Option<seq<ChatMessage>>, conversationId: Option<string>, model: Option<string>,
                       freshId: string)
    ensures var chunks := ToolStreamChunks(settings, llm, exec, fuel, message, profileId, history, conversationId, model, freshId);
            var cid := StrOr(conversationId, freshId);
            var run := RunToolGraph(settings, InitialState(settings, message, profileId, history, conversationId, model, freshId),
                                    llm, exec, fuel);
            && chunks != []
            && chunks[|chunks| - 1].isFinal
            && (forall k :: 0 <= k < |chunks| - 1 ==> !chunks[k].isFinal)
            && (forall k :: 0 <= k < |chunks| ==> chunks[k].conversationId == cid)
            && (run.outcome.Completed? ==> chunks[|chunks| - 1].content == "")
            && (run.outcome.Raised? ==> chunks[|chunks| - 1].content == ApologyPrefix + run.outcome.error)
  {
    var state := InitialState(settings, message, profileId, history, conversationId, model, freshId);
    var run := RunToolGraph(settings, state, llm, exec, fuel);
    UpdatesChunksShape(run.updates, state.conversationId);
  }

  /** Updates ending on a non-blank answer yield that answer as their last chunk. */
  lemma UpdatesEndOnAnswer(updates: seq<NodeUpdate>, cid: string)
    requires EndsOnAnswer(updates) && !IsBlank(updates[|updates| - 1].messages[0].content)
    ensures var chunks := UpdatesChunks(updates, cid);
            chunks != [] && chunks[|chunks| - 1] == Chunk(AiResponsePrefix + updates[|updates| - 1].messages[0].content, cid)
  {
    var last := updates[|updates| - 1];
    var content := last.messages[0].content;
    assert last.messages == [Ai(content, [])];
    AgentAnswerChunks(content, cid);
  }

  /** After a completed run whose answer is not blank, the chunk right
      before the sentinel is that answer. */
  lemma FinalAnswerBeforeSentinel(settings: Settings, llm: Llm, exec: ToolExec, fuel: nat, state: ToolState)
    ensures var run := RunToolGraph(settings, state, llm, exec, fuel);
            var chunks := StreamOf(run, state.conversationId);
            run.outcome.Completed? ==>
              && EndsOnAnswer(run.updates)
              && (!IsBlank(run.updates[|run.updates| - 1].messages[0].content) ==>
                    |chunks| >= 2
                    && chunks[|chunks| - 2] ==
                         Chunk(AiResponsePrefix + run.updates[|run.updates| - 1].messages[0].content, state.conversationId))
  {
    var run := RunToolGraph(settings, state, llm, exec, fuel);
    RunToolGraphOutcome(settings, state, llm, exec, fuel);
    if run.outcome.Completed? && !IsBlank(run.updates[|run.updates| - 1].messages[0].content) {
      UpdatesEndOnAnswer(run.updates, state.conversationId);
    }
  }
}
