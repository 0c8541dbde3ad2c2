# AI assistant chat and profile manager — a verified model

The system is a chat back end with a profile manager next to it.

- **Chat.** A FastAPI service passes a user's message, with an optional history, to a chat model selected by name (`gpt…` or `claude…`). It answers either with one JSON reply or as a stream of chunks, written to the wire as server-sent events.
- **Tool chat.** A second chat service lets the model call four profile tools. The tools render a person's profile, careers and projects as Korean text blocks.
- **Profile store.** Profiles, careers and projects live in a Supabase store behind a thin service. Pydantic request models check their fields.
- **Management pages.** Three Streamlit pages let a person create and edit those records. They are the profile, career and project pages.

This project models that core in Dafny and proves what it promises.

- **Libraries become inputs.** The LangGraph graph, the remote model and the tools become explicit values:
  - the model is an oracle function from a message list to a reply;
  - a graph run is the sequence of node updates it streams;
  - a tool run is a function from a call to its result text.
- **The store** is a class holding three tables as sequences.
- **The pages** contribute only their pure logic:
  - parsing the technology list;
  - first-of-month dates and their order check;
  - request bodies;
  - the changed-fields diff;
  - duration arithmetic;
  - URL normalisation;
  - response classification;
  - the two-click delete flag.

One module per source component:

| module | file | models |
|---|---|---|
| `Wrappers`, `Text`, `Dates`, `StableSort` | `wrappers.dfy`, `text.dfy`, `dates.dfy`, `stable_sort.dfy` | Python string and date operations the core relies on (`strip`, `split`, `rstrip`, `isoformat`/`strptime`, a stable `sort(reverse=True)`) |
| `ChatModels` | `chat_models.dfy` | `app/models/chat.py` |
| `Config` | `config.dfy` | `app/core/config.py` |
| `Messages` | `messages.dfy` | `_get_llm` and `_convert_messages_to_langchain`, shared by both chat services, and the system-prompt injection |
| `ChatService` | `chat_service.dfy` | `app/services/chat_service.py` |
| `ChatToolService` | `chat_tool_service.dfy` | `app/services/chat_tool_service.py` |
| `ChatApi` | `chat_api.dfy` | `app/api/endpoints/chat.py` |
| `ProfileModels` | `profile_models.dfy` | `app/models/profile.py` |
| `ProfileService` | `profile_service.dfy` | `app/services/profile_service.py` |
| `ProfileTools` | `profile_tools.dfy` | `app/services/tools.py` |
| `ApiClient` | `api_client.dfy` | the HTTP client class each page defines |
| `DeleteConfirm` | `delete_confirm.dfy` | the two-click delete of the project and career pages |
| `ProjectPage`, `CareerPage`, `ProfilePage` | `project_page.dfy`, `career_page.dfy`, `profile_page.dfy` | the three Streamlit pages |

The model follows the code in three places where the system's own description says otherwise:

- **Undated projects in the project tool.** The description says undated projects are listed last. The code sorts with 1900-01-01 standing in for a missing start date. So a project that started before 1900 is listed after an undated one (`ProfileTools.UndatedBeforeEarlierDated`).
- **Store listings.** Careers and projects come back ordered by start date descending. The store puts undated projects first, as a descending order over a nullable column does (`ProfileService.UndatedProjectsFirst`).
- **Updates cannot clear a field.** Every update drops the fields that are None. So no edit can clear a phone number, an end date or a description once set (`ProfileService.UpdatesNeverClear`). This is why the "currently employed" and "ongoing" ticks on the edit pages cannot remove a stored end date (`CareerPage.CurrentEditKeepsEndDate`, `ProjectPage.OngoingEditKeepsEndDate`).

## Model

| member | source | states |
|---|---|---|
| Text.EmptyToNone | streamlit_pages/profile_manager.py:184-186 | `x if x else None` on a text: None exactly for the empty string, the text itself otherwise |
| Text.LStripSpec | streamlit_pages/project_manager.py:298 | `lstrip()` removes exactly a leading run of whitespace: the result is a suffix of the input, it does not start with whitespace, and what was cut is blank |
| Text.RStripSpec | streamlit_pages/project_manager.py:298 | `rstrip()` removes exactly a trailing run of whitespace |
| Text.StripSpec | streamlit_pages/project_manager.py:298 | `strip()` returns a slice of the input with only whitespace cut on either side, and neither of its ends is whitespace |
| Text.StripEmptyIffBlank | streamlit_pages/project_manager.py:308 | `not s.strip()` holds exactly when the text is all whitespace |
| Text.StripIdempotent | streamlit_pages/project_manager.py:324 | stripping twice is stripping once, and a stripped non-empty text has no whitespace at either end |
| Text.StripKeepsPrefix | streamlit_pages/project_manager.py:456 | a stripped word at the front of a text is still at the front after stripping |
| Text.RStripChar | streamlit_pages/profile_manager.py:15 | `rstrip('/')` is a prefix of the input that does not end in "/", and everything it cut was "/" |
| Text.JoinSplit | app/core/config.py:46 | `split(',')` loses nothing: joining the pieces with the separator gives the input back |
| Text.SplitPiecesHaveNoSep | app/core/config.py:46 | no piece of a split contains the separator |
| Text.SplitCount | streamlit_pages/profile_manager.py:396 | a split has one piece more than the text has separators |
| Text.StripNonBlankIsDropEmpty | streamlit_pages/project_manager.py:298 | `[t.strip() for t in parts if t.strip()]` is the stripped pieces with the empty ones removed |
| Text.SplitStripNonBlankSpec | app/core/config.py:46 | every entry of the stripped non-blank split is a stripped word without the separator, and there are at most separators + 1 of them |
| Text.NatToStringInjective | streamlit_pages/profile_manager.py:35 | different status codes print as different decimal texts |
| Dates.BeforeIsStrictTotalOrder | streamlit_pages/project_manager.py:313 | date comparison is irreflexive, transitive and total |
| Dates.FirstOfMonthOrder | streamlit_pages/project_manager.py:264-277 | `date(y2, m2, 1) < date(y1, m1, 1)` exactly when (y2, m2) is lexicographically before (y1, m1) |
| Dates.FirstOfMonthRoundTrip | streamlit_pages/project_manager.py:331 | the first of a month of years 1..9999 is a valid date and its ISO text parses back to it |
| Dates.ParseIso | streamlit_pages/career_manager.py:324 | `strptime(s, '%Y-%m-%d')` yields only valid calendar dates |
| Dates.IsoRoundTrip | streamlit_pages/project_manager.py:331 | `isoformat()` of a valid date is 10 characters long and parses back to the same date |
| StableSort.SortDescSpec | app/services/tools.py:86 | `sort(key, reverse=True)` puts later keys first and is a permutation of its input |
| StableSort.SortDescStable | app/services/tools.py:86 | the sort is stable: for every key, the items with that key keep their input order |
| StableSort.SortedDescUnique | app/services/tools.py:86 | two latest-first orders that keep every key's items in the same order are equal, so the sort is determined by these properties |
| ChatModels.ParseRoleExact | app/models/chat.py:9-13 | a role string is accepted exactly when it is "user", "assistant" or "system", and each role's value reads back as that role |
| ChatModels.ValidateChatRequestSpec | app/models/chat.py:24-32 | a request is accepted exactly when its message has 1..10000 characters, max_tokens (when given) is in 1..4000 and stream is not null; stream defaults to true |
| ChatModels.Chunk | app/models/chat.py:44-49 | a chunk built without the optional fields is not final and has no metadata |
| Config.CorsOriginsListSpec | app/core/config.py:42-52 | no or empty setting gives no origins; otherwise every origin is a stripped non-empty entry without a comma, a "*" entry collapses the list to exactly ["*"], and otherwise the origins are the stripped entries in configured order with the blank ones dropped |
| Messages.ModelOrDefault | app/services/chat_service.py:33 | `model_name or settings.default_model`: the given name when non-empty, else the configured default |
| Messages.GetLlm | app/services/chat_service.py:31-56 | a "gpt" name selects OpenAI and needs its key, a "claude" name selects Anthropic and needs its key, any other name fails as unsupported, each failure with the source's message |
| Messages.GetLlmDefault | app/services/chat_service.py:33 | no model name and an empty one both route as the configured default name |
| Messages.ToLcRoundTrip | app/services/chat_service.py:94-100 | each role maps one-to-one to a LangChain message kind, keeping its content |
| Messages.ConvertMessages | app/services/chat_service.py:90-102 | the loop converts the history one message per message, in order, each reading back as the original |
| Messages.InjectSystem | app/services/chat_service.py:66-71 | the prompt is put in front exactly when no system message is present; otherwise the list is unchanged |
| ChatService.ChatNode | app/services/chat_service.py:61-80 | the node fails exactly when routing or the model fails; otherwise its update is the single model reply to the prompt-injected messages |
| ChatService.RunChatGraphAddsNoSystem | app/services/chat_service.py:76-80 | the stored history never gains the injected system prompt |
| ChatService.InputMessagesSpec | app/services/chat_service.py:123-128 | with a non-empty history only the converted history is sent and `message` is not appended; otherwise just the message |
| ChatService.Chat | app/services/chat_service.py:104-146 | `chat` returns the model's reply, or the apology followed by the routing or model error, and never raises |
| ChatService.SliceFrom | app/services/chat_service.py:192 | `content[n:]` is the suffix after the first n characters, empty once n is past the end |
| ChatService.DeltaStep | app/services/chat_service.py:185-199 | an update yields nothing when its content is unchanged or missing, otherwise one chunk with the unseen suffix |
| ChatService.StreamDeltas | app/services/chat_service.py:183-199 | the delta loop yields the specified delta chunks and ends with `accumulated` equal to the latest content seen |
| ChatService.DeltasConcatenate | app/services/chat_service.py:183-199 | when each content extends the previous one, the deltas concatenate to the final content |
| ChatService.DeltaChunksShape | app/services/chat_service.py:195-199 | at most one delta per update; every delta is non-final and carries the conversation id |
| ChatService.StreamChat | app/services/chat_service.py:148-215 | `stream_chat` yields the deltas of the run followed by its closing chunk |
| ChatService.StreamChatEnds | app/services/chat_service.py:201-215 | a stream ends with exactly one final chunk: the empty sentinel after a completed run, or the single apology chunk after a failure; every chunk carries the conversation id |
| ChatService.StreamMatchesChat | app/services/chat_service.py:137-206 | streaming and non-streaming agree: the deltas of a successful stream, or its apology, equal what `chat` returns |
| ChatToolService.AgentPrompt | app/services/chat_tool_service.py:83-100 | the agent prompt embeds the profile id at a fixed place |
| ChatToolService.AgentNode | app/services/chat_tool_service.py:77-116 | the agent update is a single AI message |
| ChatToolService.AgentNodeSpec | app/services/chat_tool_service.py:103-116 | the agent asks the model with its prompt put in front only when absent, and fails with the routing or model error |
| ChatToolService.ShouldContinue | app/services/chat_tool_service.py:118-126 | on to the tools exactly when the last message is an AI message with a non-empty list of tool calls |
| ChatToolService.ToolResults | app/services/chat_tool_service.py:129 | the tool node answers every call, in order, with one tool message carrying the call's id |
| ChatToolService.RunToolGraphRound | app/services/chat_tool_service.py:132-139 | an agent step that asks for tools is followed by the tool step answering exactly its calls, then the rest of the run |
| ChatToolService.RunToolGraphLast | app/services/chat_tool_service.py:132-139 | an agent step without tool calls ends the run |
| ChatToolService.RunToolGraphAlternates | app/services/chat_tool_service.py:132-139 | agent and tool updates alternate, starting with the agent, each tool step answering the preceding agent's calls |
| ChatToolService.RunToolGraphOutcome | app/services/chat_tool_service.py:118-139 | a completed run ends on an agent answer with no tool calls |
| ChatToolService.RunToolGraphRaised | app/services/chat_tool_service.py:132-139 | a run that raised stopped at an agent step, after whole agent/tool rounds |
| ChatToolService.ToolInputSpec | app/services/chat_tool_service.py:177-182 | the input is the converted history followed by the new message, so the new message is always last |
| ChatToolService.AppendMessageChunks | app/services/chat_tool_service.py:199-218 | one message's chunks are appended to the stream |
| ChatToolService.AppendUpdateChunks | app/services/chat_tool_service.py:194-230 | the chunks of every message of one update are appended in order |
| ChatToolService.AssembleChunks | app/services/chat_tool_service.py:193-230 | the event loop yields the chunks of every update, in order |
| ChatToolService.CallChunksSpec | app/services/chat_tool_service.py:202-209 | one "calling tool" chunk per tool call, naming the calls in order |
| ChatToolService.ToolUpdateChunks | app/services/chat_tool_service.py:220-230 | a tool update yields one "tool result" chunk per tool message, in order |
| ChatToolService.AgentCallChunks | app/services/chat_tool_service.py:200-218 | an agent message with tool calls yields exactly the calling-tool chunks, and its text is not emitted |
| ChatToolService.AgentAnswerChunks | app/services/chat_tool_service.py:211-218 | an agent message without tool calls yields the answer chunk exactly when its text is not blank |
| ChatToolService.StreamChatWithProfileTools | app/services/chat_tool_service.py:159-247 | the tool stream yields the chunks of the run's updates followed by its closing chunk |
| ChatToolService.CallChunksShape | app/services/chat_tool_service.py:204-209 | calling-tool chunks are non-final and carry the conversation id |
| ChatToolService.UpdateChunksShape | app/services/chat_tool_service.py:204-230 | every chunk of one update is non-final and carries the conversation id |
| ChatToolService.UpdatesChunksShape | app/services/chat_tool_service.py:193-230 | every chunk before the closing one is non-final and carries the conversation id |
| ChatToolService.ToolStreamEnds | app/services/chat_tool_service.py:232-247 | the tool stream ends with exactly one final chunk: the empty sentinel after a completed run, the error text after a failure |
| ChatToolService.UpdatesEndOnAnswer | app/services/chat_tool_service.py:211-218 | updates ending on a non-blank answer yield that answer as their last chunk |
| ChatToolService.FinalAnswerBeforeSentinel | app/services/chat_tool_service.py:211-237 | after a completed run with a non-blank answer, the chunk right before the sentinel is that answer |
| ChatApi.HttpExceptionText | app/api/endpoints/chat.py:51-55 | `str()` of an HTTP exception ends with its detail |
| ChatApi.ChatHandlerAsWritten | app/api/endpoints/chat.py:18-55 | as written, every streaming request to `POST /chat/` ends in a 500 |
| ChatApi.StreamRequestGetsInternalError | app/api/endpoints/chat.py:24-55 | the 500's detail wraps the intended 400, so the written handler differs from the intended one |
| ChatApi.ChatHandler | app/api/endpoints/chat.py:18-55 | the intended handler: success exactly for a non-streaming request the service answers, echoing the conversation id or "new" and the model or "default"; a streaming request gets 400 with the hint; a ValueError maps to 400 and anything else to 500 |
| ChatApi.HandlersAgreeWithoutStreaming | app/api/endpoints/chat.py:25-55 | both handlers agree on every non-streaming request |
| ChatApi.ChatEndpointSpec | app/api/endpoints/chat.py:18-55 | over the real service, a non-streaming request always succeeds with `chat`'s text, the request's conversation id or "new" and its model or "default"; a streaming request (the default) gets 500 "Internal server error: 400: …"; the corrected endpoint answers that request with 400 and agrees on every other |
| ChatApi.ReplyDoesNotEchoMintedId | app/api/endpoints/chat.py:40-44 | a request without a conversation id is answered with "new", not with the id the service minted |
| ChatApi.Frame | app/api/endpoints/chat.py:76 | an event is its payload plus the 8 framing characters |
| ChatApi.Payload | app/api/endpoints/chat.py:76 | a payload read from an event frames back to that event |
| ChatApi.PayloadFrame | app/api/endpoints/chat.py:76 | every payload comes back out of its event unchanged |
| ChatApi.GenerateStream | app/api/endpoints/chat.py:65-82 | the generator writes one event per chunk, then the end marker |
| ChatApi.StreamFramesSpec | app/api/endpoints/chat.py:65-82 | frames = chunks + 1; each chunk is recovered in order; the end marker is last and cannot be mistaken for a JSON chunk |
| ChatApi.StreamEndpoint | app/api/endpoints/chat.py:58-92 | `POST /chat/stream` writes the service's chunks as events |
| ChatApi.StreamEndpointEndsWithFinalChunk | app/api/endpoints/chat.py:82 | the event before the end marker always carries the service's final chunk |
| ProfileModels.WithoutProjects | app/models/profile.py:113-115 | a career with projects defaults to no projects |
| ProfileModels.WithoutCareers | app/models/profile.py:118-120 | a profile with details defaults to no careers |
| ProfileModels.OptionalText | app/models/profile.py:14-15 | an optional text field is accepted exactly when it is not given or within its maximum length |
| ProfileModels.OptionalDate | app/models/profile.py:48 | an optional date field is accepted exactly when it is not given or parses as an ISO date |
| ProfileModels.ValidateProfileCreate | app/models/profile.py:12-22 | a profile needs a name of at most 100 characters and an email; a phone has at most 20; the record keeps the body's values |
| ProfileModels.ValidateProfileUpdate | app/models/profile.py:25-31 | every profile field is optional in an update, with the same length limits |
| ProfileModels.ValidateCareerCreate | app/models/profile.py:45-55 | a career needs a profile id, a company name of at most 200 characters and a start date; a position has at most 100; a missing end date means current |
| ProfileModels.ValidateCareerUpdate | app/models/profile.py:58-64 | every career field is optional in an update, with the same limits; a given date becomes the date it parses to, a left-out one None, and the texts are kept |
| ProfileModels.ValidateProjectCreate | app/models/profile.py:79-89 | a project needs a career id and a name of at most 200 characters; its dates are optional; its technologies default to [] |
| ProfileModels.ValidateProjectUpdate | app/models/profile.py:92-98 | every project field is optional in an update; a given date becomes the date it parses to, a left-out one None; name, description and technologies are kept, and technologies default to None, not [] |
| ProfileModels.EmptyUpdatesValid | app/models/profile.py:25-98 | an update body with no fields is valid and changes nothing |
| ProfileModels.CareerEndMayPrecedeStart | app/models/profile.py:47-48 | no model constraint ties the end date to the start date: a career ending before it starts is accepted |
| ProfileService.FirstWith | app/services/profile_service.py:36-38 | `result.data[0]` after a filter: the first matching row, None exactly when no row matches |
| ProfileService.SelectSpec | app/services/profile_service.py:110-111 | a filter returns exactly the matching rows |
| ProfileService.Range | app/services/profile_service.py:56 | `.range(start, end)` returns the rows at positions start..end inclusive, fewer at the end of the table |
| ProfileService.UpdateWhere | app/services/profile_service.py:69 | an update rewrites rows without changing the table's size |
| ProfileService.UpdateWhereSpec | app/services/profile_service.py:69-72 | exactly the matching rows are rewritten, and the first match afterwards is the first match before, updated |
| ProfileService.RejectSpec | app/services/profile_service.py:79-80 | a delete removes exactly the matching rows, and the table shrinks exactly when some row matched |
| ProfileService.OverwriteNullable | app/services/profile_service.py:65 | a None field leaves its column alone, so a set column stays set |
| ProfileService.ApplyProfileUpdate | app/services/profile_service.py:61-72 | an update keeps the id, and an update with no field set changes nothing |
| ProfileService.ApplyCareerUpdate | app/services/profile_service.py:115-125 | an update keeps the career's id and profile, and an update with no field set changes nothing |
| ProfileService.ApplyProjectUpdate | app/services/profile_service.py:168-178 | an update keeps the project's id and career, and an update with no field set changes nothing |
| ProfileService.UpdatesNeverClear | app/services/profile_service.py:65 | no update can null a nullable column of a profile, career or project |
| ProfileService.ValidatedUpdatesAreValid | app/services/profile_service.py:61 | an update body the request model accepts is within the record's bounds |
| ProfileService.ProfileUpdateKeepsValid | app/services/profile_service.py:61-72 | updating a valid profile with a valid update gives a valid profile |
| ProfileService.CareerUpdateKeepsValid | app/services/profile_service.py:115-125 | updating a valid career with a valid update gives a valid career |
| ProfileService.ProjectUpdateKeepsValid | app/services/profile_service.py:168-178 | updating a valid project with a valid update gives a valid project |
| ProfileService.UndatedProjectsFirst | app/services/profile_service.py:163 | in a project listing every undated project precedes every dated one |
| ProfileService.Database.constructor | app/services/profile_service.py:19-20 | a new store is empty and valid |
| ProfileService.Database.CreateProfile | app/services/profile_service.py:23-31 | creating a profile appends exactly that row and returns it |
| ProfileService.Database.GetAllProfiles | app/services/profile_service.py:53-59 | paging returns at most `limit` profiles: those from `offset` on, in table order |
| ProfileService.Database.UpdateProfile | app/services/profile_service.py:61-74 | an empty update writes nothing and re-reads; otherwise the matching row is rewritten; the result is None exactly when no profile has the id, else the updated profile |
| ProfileService.Database.DeleteProfile | app/services/profile_service.py:76-82 | delete removes the matching rows and returns true exactly when the profile existed |
| ProfileService.Database.CreateCareer | app/services/profile_service.py:85-95 | creating a career appends exactly that row and returns it |
| ProfileService.Database.UpdateCareer | app/services/profile_service.py:115-127 | as for profiles, on the career table |
| ProfileService.Database.DeleteCareer | app/services/profile_service.py:129-135 | delete returns true exactly when the career existed, and removes it |
| ProfileService.Database.CreateProject | app/services/profile_service.py:138-148 | creating a project appends exactly that row and returns it |
| ProfileService.Database.UpdateProject | app/services/profile_service.py:168-180 | as for profiles, on the project table |
| ProfileService.Database.DeleteProject | app/services/profile_service.py:182-188 | delete returns true exactly when the project existed, and removes it |
| ProfileService.Database.GetProfileWithDetails | app/services/profile_service.py:191-216 | the loop attaching each career's projects builds the specified details |
| ProfileService.Database.CareersOfProfileSpec | app/services/profile_service.py:107-113 | a profile's career listing holds exactly its careers, latest start first |
| ProfileService.Database.ProjectsOfCareerSpec | app/services/profile_service.py:160-166 | a career's project listing holds exactly its projects, latest start first |
| ProfileService.Database.DetailsSpec | app/services/profile_service.py:191-214 | details exist exactly when the profile does; careers keep listing order, and each carries exactly the projects of its id |
| ProfileTools.AppendPeriod | app/services/tools.py:45-49 | the period line is appended, with "~ 현재" when there is no end date |
| ProfileTools.AppendOptional | app/services/tools.py:50-51 | a line is appended only for a field that is neither None nor empty |
| ProfileTools.AppendTechnologies | app/services/tools.py:106-107 | the technologies line is appended only for a non-empty list |
| ProfileTools.CountTitleSurvivesStrip | app/services/tools.py:40-54 | the final `strip()` leaves the counted title at the front |
| ProfileTools.GetProfileInfo | app/services/tools.py:8-27 | a failed lookup gives the error text, a missing profile the not-found text, otherwise the profile block |
| ProfileTools.ProfileInfoPlaceholders | app/services/tools.py:17-22 | a missing or empty phone or address renders as "정보 없음" and a missing bio as "자기소개 없음" |
| ProfileTools.AppendCareer | app/services/tools.py:43-52 | one career's numbered block is appended |
| ProfileTools.AppendCareers | app/services/tools.py:42-52 | the loop appends the blocks numbered 1..n in input order |
| ProfileTools.GetCareersByProfile | app/services/tools.py:30-57 | the tool computes the specified careers text |
| ProfileTools.CareersTextSpec | app/services/tools.py:37-54 | a non-empty list opens with a title counting its careers; an empty one gives the not-found text and no title; a failure gives the error text |
| ProfileTools.CareerEntriesNumbered | app/services/tools.py:42-43 | career k+1's block opens with its number and company right after the blocks before it |
| ProfileTools.Tagged | app/services/tools.py:74-80 | every project of a career is tagged with that career's company, in order |
| ProfileTools.FlattenProjects | app/services/tools.py:71-80 | the nested loop collects the specified flattening |
| ProfileTools.FlattenedStopsAtError | app/services/tools.py:72-73 | once a lookup failed, later careers do not change the outcome |
| ProfileTools.FlattenedSpec | app/services/tools.py:71-83 | every collected project came from one of the careers and carries its company; the count is the total over all careers |
| ProfileTools.SortProjectsSpec | app/services/tools.py:86 | the project sort is latest-first by start key, a permutation, and stable |
| ProfileTools.UndatedAfterLaterDated | app/services/tools.py:86 | an undated project comes after every project that started after 1900-01-01 |
| ProfileTools.UndatedBeforeEarlierDated | app/services/tools.py:86 | but it comes before a project that started on 1899-12-31 |
| ProfileTools.AppendProject | app/services/tools.py:90-108 | one project's numbered block is appended |
| ProfileTools.AppendProjects | app/services/tools.py:90-108 | the loop appends the blocks numbered in sorted order |
| ProfileTools.GetProjectsByProfile | app/services/tools.py:60-113 | the tool computes the specified projects text |
| ProfileTools.ProjectsTextCount | app/services/tools.py:82-88 | the project title counts every project of every career |
| ProfileTools.ProjectsFirstIsLatest | app/services/tools.py:86-94 | the list opens with a project whose start key is the latest |
| ProfileTools.ProjectEntriesNumbered | app/services/tools.py:90-94 | project k+1's block opens with its number and name |
| ProfileTools.AppendDetailProject | app/services/tools.py:152-165 | one nested project's "i-j" block is appended |
| ProfileTools.AppendDetailProjects | app/services/tools.py:150-165 | the inner loop appends a career's project blocks in order |
| ProfileTools.AppendDetailCareer | app/services/tools.py:139-165 | one career's block and its projects are appended |
| ProfileTools.AppendDetailCareers | app/services/tools.py:137-165 | the outer loop appends the career blocks in order |
| ProfileTools.GetProfileWithFullDetails | app/services/tools.py:116-172 | the tool computes the specified full-details text |
| ProfileTools.FullDetailsShape | app/services/tools.py:126-167 | without careers the header is followed by "등록된 경력사항이 없습니다."; otherwise by a title counting the careers |
| ProfileTools.ProjectLabelsUnique | app/services/tools.py:153 | different (career, project) positions get different "i-j" labels |
| ApiClient.BaseUrl | streamlit_pages/profile_manager.py:15 | the base URL never ends with "/" |
| ApiClient.BaseUrlSpec | streamlit_pages/profile_manager.py:15 | the base URL is the input up to its trailing slashes; adding slashes or normalising again changes nothing |
| ApiClient.Client.constructor | streamlit_pages/profile_manager.py:14-16 | the client keeps the normalised base URL and the API root after it |
| ApiClient.Client.Url | streamlit_pages/profile_manager.py:20 | a request URL is the API root followed by the endpoint path |
| ApiClient.UrlIgnoresTrailingSlashes | streamlit_pages/profile_manager.py:15-20 | trailing slashes on the base URL never change a request URL, and no slash is doubled where the base meets the API root |
| ApiClient.Classify | streamlit_pages/profile_manager.py:32-43 | status ≥ 400 gives "HTTP <code>: <text>"; an exception gives its message; otherwise the decoded body is delivered |
| ApiClient.HttpErrorTextInjective | streamlit_pages/profile_manager.py:35 | different failed responses give different error texts |
| DeleteConfirm.KeysDistinguishItems | streamlit_pages/project_manager.py:227 | different items have different confirmation flags |
| DeleteConfirm.AfterClick | streamlit_pages/project_manager.py:235 | a click sets its own flag and leaves every other flag alone |
| DeleteConfirm.Issued | streamlit_pages/project_manager.py:226-236 | one verdict per click |
| DeleteConfirm.IssuedSpec | streamlit_pages/project_manager.py:226-236 | a click deletes exactly when its flag was set before or the same button was clicked earlier |
| DeleteConfirm.Session.constructor | streamlit_pages/project_manager.py:227 | a fresh session has no flags |
| DeleteConfirm.Session.ClickDelete | streamlit_pages/career_manager.py:186-196 | a click deletes exactly when the flag was set, and leaves it set |
| DeleteConfirm.TwoClicks | streamlit_pages/career_manager.py:186-196 | in a fresh session the first click only arms and the second deletes |
| ProjectPage.ParseTechnologiesSpec | streamlit_pages/project_manager.py:298 | parsed technologies are the stripped non-empty pieces in input order, without commas; every non-blank piece appears |
| ProjectPage.TechPrefillRoundTrip | streamlit_pages/project_manager.py:453-491 | parsing the prefilled `', '.join(...)` of stored technologies gives them back |
| ProjectPage.JoinedTechsParse | streamlit_pages/project_manager.py:456 | joining stripped words with ", " and splitting on "," recovers the words |
| ProjectPage.PayloadSpec | streamlit_pages/project_manager.py:306-333 | a blank name is refused, then a start month after the end month when not ongoing, then an untouched null description raises; the body has the stripped name, the start date always and the end date only when not ongoing |
| ProjectPage.CreateAccepted | streamlit_pages/project_manager.py:323-333 | a body the page sends is accepted and stores the form's first-of-month dates, the stripped name and description (None when blank) and the parsed technologies |
| ProjectPage.CreateBodyAccepted | app/models/profile.py:79-89 | a creation body with a career id, a short name and dates rendered from valid dates stores exactly those dates |
| ProjectPage.OngoingEditKeepsEndDate | streamlit_pages/project_manager.py:501-503 | ticking "ongoing" on the edit page does not remove a stored end date, and blanking the description keeps the old one |
| ProjectPage.InitialEditForm | streamlit_pages/project_manager.py:420-446 | "ongoing" starts ticked exactly when there is no end date, and the description box holds None exactly when the stored description is null |
| ProjectPage.CorrectedInitialEditForm | streamlit_pages/project_manager.py:444-446 | the intended prefill: the description box always holds text, and agrees with the written form whenever a description is stored |
| ProjectPage.UnchangedEditKeepsProject | streamlit_pages/project_manager.py:390-503 | submitting the edit form unchanged rewrites the project as it was exactly when it has a description; without one the submit raises on `None.strip()` and nothing is sent |
| ProjectPage.CorrectedUnchangedEditKeepsProject | streamlit_pages/project_manager.py:390-503 | with the corrected prefill, an unchanged submit rewrites every form-shaped project as it was, with or without a description |
| ProjectPage.NullDescriptionEditFails | streamlit_pages/project_manager.py:444-496 | a named, ongoing project without a description raises on submit as written, and is sent with the corrected prefill |
| ProjectPage.UndatedEditGetsStartDate | streamlit_pages/project_manager.py:400-408 | editing an undated project sends a body exactly when it has a description, and then stores this month as its start date |
| ProjectPage.MonthsAndDays | streamlit_pages/project_manager.py:193-195 | months·30 + days = duration with 0 ≤ days < 30 |
| CareerPage.PayloadSpec | streamlit_pages/career_manager.py:246-259 | an empty company is refused, then a start month after the end month unless current; the end date is null exactly when current; an empty position or description is null |
| CareerPage.CreateBodyAccepted | app/models/profile.py:45-55 | a creation body with a profile id, short names and dates rendered from valid dates stores exactly those dates |
| CareerPage.CreateAccepted | streamlit_pages/career_manager.py:252-259 | a body the page sends is accepted and stores the form's dates in order, no end date exactly when current, and no position or description exactly when empty |
| CareerPage.CurrentEditKeepsEndDate | streamlit_pages/career_manager.py:382-388 | ticking "current" on the edit page does not remove a stored end date; emptied optional fields survive |
| CareerPage.InitialEditForm | streamlit_pages/career_manager.py:334-337 | "current" starts ticked exactly when there is no end date |
| CareerPage.UnchangedEditKeepsCareer | streamlit_pages/career_manager.py:308-388 | submitting the edit form unchanged rewrites the career as it was |
| CareerPage.YearsAndMonths | streamlit_pages/career_manager.py:161-163 | years·365 + months·30 ≤ duration < that + 30, with 0 ≤ months ≤ 12 |
| ProfilePage.CreateBodySpec | streamlit_pages/profile_manager.py:178-187 | an empty name or email is refused; the stored profile has the typed name and email and None for each empty optional field |
| ProfilePage.EditDiff | streamlit_pages/profile_manager.py:255-265 | the diff holds exactly the fields whose value changed, a cleared optional field as None |
| ProfilePage.NoRequestIffUnchanged | streamlit_pages/profile_manager.py:246-267 | no request is sent exactly when the form is left as it opened |
| ProfilePage.EditOutcome | streamlit_pages/profile_manager.py:255-268 | a sent update is accepted exactly when a changed name and phone are within bounds; the stored profile then has the new name and email, and each optional field is the new value or, when cleared, the old one |
| ProfilePage.TechListSpec | streamlit_pages/profile_manager.py:396 | one entry per comma-separated piece, stripped, empty entries kept, [] for empty input; the project page's list is this one without the empty entries |
| ProfilePage.CareerCreateRejected | streamlit_pages/profile_manager.py:308-316 | the career body the page sends lacks the profile id and is always refused |
| ProfilePage.CareerCreateAccepted | streamlit_pages/profile_manager.py:308-314 | with the profile id added, the body is accepted and stores the form's values, no end date when current |
| ProfilePage.ProjectCreateRejected | streamlit_pages/profile_manager.py:398-406 | the project body the page sends lacks the career id and is always refused |
| ProfilePage.ProjectCreateAccepted | streamlit_pages/profile_manager.py:396-404 | with the career id added, the body is accepted and stores the form's values and the split technology list |

## Left out

- ChatToolService.RunToolGraph: the agent/tools loop carries a fuel bound, and running out of fuel ends the run as an error. The source has no bound. Its only limit (5 rounds) is passed by a test script. The bound is a modelling device, and every lemma holds for any fuel.
- LangGraph checkpointing (MemorySaver): the model does not keep conversation memory across calls under one thread id. Each call starts from the messages it is given.
- LangGraph internals are replaced by their visible effect:
  - the graph engine, the `add_messages` reducer, `ToolNode` and `bind_tools`;
  - a run is the sequence of node updates it produces;
  - a tool node's result for a call is an input function.
- Remote chat models and their SDKs are an oracle function. Temperature, max_tokens and streaming settings of the client are not modelled, because they only tune the remote call. The chat services also accept `temperature` and `max_tokens` arguments and never use them.
- The `ChatToolService` and `ChatService` objects hold only the memory, the tool list and the compiled graph. They are not modelled as classes; the tool list is a constant.
- The code shares two helpers, each modelled once:
  - `_get_llm` and `_convert_messages_to_langchain` appear identically in both chat services;
  - `_make_request` appears identically in all three pages.
- Message timestamps and metadata, and response timestamps, are left out. Nothing in the core reads them.
- JSON encoding of a chunk (`model_dump_json`) is a parameter of the stream endpoint. Encoded chunks are assumed to be JSON objects only where stated.
- The `asyncio.sleep(0.01)` pacing between events is not modelled: time is not modelled.
- The `/chat/health` endpoint is not modelled. It returns a constant.
- `uuid.uuid4()`, `date.today()` and `datetime.now()` are parameters (`freshId`, `today`).
- Calendar date subtraction is an input: the duration functions take the day count.
- The Supabase client is a class holding three tables:
  - query failures, and the exceptions the service wraps around them, are not modelled in the store;
  - the tools see a lookup as a `Result`, so a failure or an unparsable id reaches them as an error;
  - store-assigned ids are parameters, and `created_at`/`updated_at` are left out;
  - foreign keys and cascading deletes are not modelled;
  - rows with equal start dates keep table order, while the store's order for ties is unspecified.
- Email syntax (`EmailStr`) is not checked: an email is any string.
- Dates.ParseIso: accepts only the zero-padded `YYYY-MM-DD` form, while `strptime('%Y-%m-%d')` also accepts unpadded months and days such as "2024-1-5". The pages only parse dates the store returned, which are always padded.
- Request dispatch on the HTTP verb and the `requests` calls are not modelled. A call's outcome is an input: its exception, or its status, body text and decoded JSON.
- Streamlit widgets, tabs, selectboxes, spinners and `st.rerun` are not modelled:
  - the number inputs' ranges (years 1980–2030, months 1–12) are a precondition on the forms;
  - a text input prefilled with None returns None until edited, which is what the profile edit form and the project edit form's description model;
  - the profile page's career and project forms check no date order, and the model keeps that.
- `app/api/endpoints/profile.py`, `main.py`, the logging setup, `app/core/database.py`, the test UI and its runner are not part of this model. They are framework glue around the modelled service.
- Python's `date(...)` rejects years outside 1..9999. Those years cannot be entered on the pages, so that error is not modelled.

## Findings

| source | as written | input that shows it | evidently intended | confidence | as-written member | corrected member |
|---|---|---|---|---|---|---|
| app/api/endpoints/chat.py:25-29 | the 400 raised for a streaming request inside `try` is caught by `except Exception` (lines 51-55) and re-raised as a 500 "Internal server error: 400: Use /chat/stream…" | any `POST /chat/` body with `stream` true or omitted, since `stream` defaults to true (app/models/chat.py:32) | a 400 pointing at `/chat/stream` | not executed | ChatApi.ChatHandlerAsWritten, ChatApi.StreamRequestGetsInternalError | ChatApi.ChatHandler, ChatApi.CorrectedChatEndpoint, ChatApi.HandlersAgreeWithoutStreaming |
| streamlit_pages/profile_manager.py:308-314 | the profile page's career body has no `profile_id`, which `CareerCreate` requires (app/models/profile.py:53-55), so request validation refuses every career added from this page | a form with company "Acme" and any dates | the body names the profile, as the career page's does (streamlit_pages/career_manager.py:253) | not executed | ProfilePage.CareerBodyAsWritten, ProfilePage.CareerCreateRejected | ProfilePage.CareerBodyFor, ProfilePage.CareerCreateAccepted |
| streamlit_pages/profile_manager.py:398-404 | the profile page's project body has no `career_id`, which `ProjectCreate` requires (app/models/profile.py:87-89), so every project added from this page is refused | a form with project name "P" | the body names the career, as the project page's does (streamlit_pages/project_manager.py:327) | not executed | ProfilePage.ProjectBodyAsWritten, ProfilePage.ProjectCreateRejected | ProfilePage.ProjectBodyFor, ProfilePage.ProjectCreateAccepted |
| streamlit_pages/project_manager.py:444-446 | the edit form prefills the description box with `selected_project.get('description', '')`, which is None for a stored null, and an untouched box stays None; line 496 then calls `None.strip()` and the page raises without sending anything | any project saved without a description (the create page stores a blank description as null, line 325), edited and submitted unchanged | the box shows an empty text, so the project is saved | not executed | ProjectPage.InitialEditForm, ProjectPage.NullDescriptionEditFails | ProjectPage.CorrectedInitialEditForm, ProjectPage.CorrectedUnchangedEditKeepsProject |
