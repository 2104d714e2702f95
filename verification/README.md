# gas: agent conversation machinery, modelled in Dafny

This project models the conversation core of `gas`, a multi-agent Scrum team
simulation. Language-model agents (developer, scrum master, product owner)
share a meeting, decide whether to speak, and hear each other. The model
covers:

- **Prompt managers** (`src/core/prompt.py`, `agents/prompt.py`). Each keeps an
  append-only message history that opens with one synthesised `system`
  message and stores every content stripped of surrounding whitespace. It
  renders that history with the Llama 3.1 chat template. The one
  asymmetry: an `assistant` message that starts with `<|python_tag|>` gets no
  `<|eot_id|>`.
- **Agents** (`src/core/agent.py`, `agents/agent.py`). An agent asks the model
  whether to speak by appending a fixed instruction to its prompt. The
  decision is Yes exactly when the lower-cased answer contains
  `decision: yes`. The `src/core` agent records its reasoning under
  `<role>_thoughts` and its reply under its own role.
- **The sprint-planning loop** (`src/gas_event.py`). In every round all agents
  hear the planning text under `product_owner`. Then, in a fixed order, each
  agent thinks, speaks, and has its response delivered to every other
  agent.
- **The event page** (`src/pages/conduct_event.py`). `initialize_event` collects
  the configured participants. `process_agent_responses` lets every
  non-human participant decide on the conversation so far, records one
  entry for each, and delivers responses to participants of other roles.
- **The user-story backlog** (`src/core/project_manager.py`,
  `src/core/tools.py`). These are CRUD operations over a list of stories with
  numbered subtasks.

The language model is a parameter, `Model = string -> Option<string>`, which
maps a prompt to the generated text or to `None` when the request fails.
Files become `seq` fields or `Option` parameters: `None` stands for a missing
file and, in `StoryTools`, also for an undecodable one.

Prompt managers, agents, the backlog and the event page are classes whose
methods change their fields. Each method is specified by a function of the
old state, such as `Render`, `AddStory`, `Turns`, `Entries` or `Received`.
Lemmas prove the promised properties of those functions. The sprint loop and
the event page drive several agents at once. Their methods state every
agent's new history through a ghost sequence of histories: `Holds(agents, hs)`
says that agent `i`'s history is `hs[i]`. Each agent must own its own prompt
manager (`Distinct`).

Some behaviour of the code is easy to miss. The model keeps it:

- **A failed model request.** `prompt_model` returns `None`
  (`src/core/agent.py:108-110`), and the next history append then fails on
  `None.strip()`. The model reports this as a failed step that leaves the
  history as it was.
- **The decision.** `src/gas_event.py:37` tests the whole
  `(decision, reasoning)` tuple, and a tuple is always true. So every agent
  speaks every round, and the loop does not consult the decision.
- **Tool calls.** The agents advertise tools in their system prompt but
  never parse or invoke a tool call, so the model has none.
- **The inline case.** The no-end-of-turn case keys on the literal role
  `assistant`, not on the agent's own role. Agents store their replies under
  their own role names, so the case never fires for their replies unless an
  agent's configured role is literally `assistant`
  (`ChatTemplate.SegmentTermination`).
- **The project file.** After each non-human participant,
  `process_agent_responses` opens an existing `./config/projects.json` for
  writing and then reads it as JSON (`src/pages/conduct_event.py:177-183`).
  That read raises, so when the file exists only the first non-human
  participant is processed (`ConductEvent.ProjectFileStopsAfterFirst`).

## Model

| member | source | states |
|---|---|---|
| Text.Strip | src/core/prompt.py:49 | the stored content has no leading or trailing whitespace (Python's `str.isspace` set) and is no longer than the input |
| Text.StripInfix | src/core/prompt.py:49 | what stripping removes is whitespace on both sides of the infix it keeps |
| Text.StripIdempotent | src/core/agent.py:107 | stripping twice is stripping once, so text the model step already stripped is stored unchanged |
| Text.StripFixesStripped | agents/prompt.py:36 | already-stripped content is stored exactly as given |
| Text.LowerIdempotent | src/core/agent.py:60 | after lower-casing no ASCII capital is left and every other character is kept, so lower-casing twice is lower-casing once |
| Text.ContainsLower | src/core/agent.py:60 | a word found in a text is found, lower-cased, in the lower-cased text |
| Text.JoinSnoc | agents/prompt.py:22 | joining one more item puts exactly one separator before it |
| ChatTemplate.BuildPrompt | src/core/prompt.py:53-65 | the `+=` loop yields `<\|begin_of_text\|>` followed by one segment per message, in order |
| ChatTemplate.SegmentTermination | src/core/prompt.py:57-63 | every segment opens with its role's header; only an `assistant` message that starts with `<\|python_tag\|>` lacks the closing `<\|eot_id\|>`, and any other role always ends with it |
| ChatTemplate.SegmentsSnoc | src/core/prompt.py:56-63 | one more message adds exactly its own segment at the end |
| ChatTemplate.SegmentsAppend | src/core/prompt.py:56-63 | the segments of a concatenated history are the concatenated segments |
| ChatTemplate.RenderSnoc | src/core/prompt.py:51-63 | appending a message extends the prompt by exactly its segment; the old prompt is a prefix of the new one |
| ChatTemplate.RenderAppend | src/core/prompt.py:53-65 | rendering a longer history adds only the new messages' segments, in order |
| ChatTemplate.RenderAt | src/core/prompt.py:53-65 | each message's segment sits right after the prompt of the messages before it |
| CorePrompt.ToolLinesAppend | src/core/prompt.py:24-26 | the manifest of a table is the manifest of its first part followed by that of the rest |
| CorePrompt.ToolLinesSnoc | src/core/prompt.py:24-26 | one more tool adds exactly its `"\n- name(args): description"` line |
| CorePrompt.DescribeTools | src/core/prompt.py:23-26 | the description loop yields one line per tool in table order |
| CorePrompt.ToolLinesAt | src/core/prompt.py:24-26 | every tool's line appears between those of the tools before and after it |
| CorePrompt.ToolBlockPresence | src/core/prompt.py:22-35 | the tool block is empty if and only if the tool table is empty |
| CorePrompt.ToolBlockLists | src/core/prompt.py:22-35 | a non-empty tool block is the usage text followed by every tool's line in table order |
| CorePrompt.PromptManager.constructor | src/core/prompt.py:2-18 | a new manager holds exactly the one synthesised `system` message |
| CorePrompt.PromptManager.InitializeSystemPrompt | src/core/prompt.py:20-44 | appends the `system` message built from preamble, tool block, dates, role line and system content |
| CorePrompt.PromptManager.AddObservedMessage | src/core/prompt.py:46-51 | appends exactly one message with stripped content and keeps the earlier ones; a well-formed history stays well-formed |
| CorePrompt.PromptManager.GetPrompt | src/core/prompt.py:53-65 | the prompt is the rendered history |
| CorePrompt.PromptManager.Reset | src/core/prompt.py:67-70 | whatever the prior length, the history becomes that of a freshly built manager |
| LegacyPrompt.ToolsLineShape | agents/prompt.py:22 | the tools line is empty exactly when there are no tools, else `"Tools: "` and the names joined by `", "` |
| LegacyPrompt.PromptManager.constructor | agents/prompt.py:2-18 | a new manager holds exactly the one synthesised `system` message |
| LegacyPrompt.PromptManager.InitializeSystemPrompt | agents/prompt.py:20-31 | appends the `system` message with the tools line |
| LegacyPrompt.PromptManager.AddObservedMessage | agents/prompt.py:33-38 | appends one stripped message and keeps the earlier ones |
| LegacyPrompt.PromptManager.GetPrompt | agents/prompt.py:40-51 | the prompt is the rendered history: begin token, one header-wrapped segment per message |
| LegacyPrompt.PromptManager.Reset | agents/prompt.py:53-56 | exactly the one regenerated system message remains |
| Decision.DecideIffYesMarker | src/core/agent.py:58-65 | the decision is Yes if and only if the lower-cased text contains `decision: yes`; the no marker never matters |
| Decision.YesInAnyCase | src/core/agent.py:60 | a yes marker in any letter case gives Yes |
| Decision.RequestedYesSpelling | src/core/agent.py:46-49 | the spelling the instruction asks for, `Decision: Yes`, gives Yes |
| Decision.NoWithoutYes | src/core/agent.py:62-63 | `Decision: No` without a yes marker gives No |
| CoreAgent.PromptModel | src/core/agent.py:86-110 | the reply is `None` exactly when the request failed, else the model's text with surrounding whitespace removed |
| CoreAgent.Agent.constructor | src/core/agent.py:11-32 | the agent owns a fresh prompt manager for its role, system message and tools, holding only its system message |
| CoreAgent.Agent.ShouldRespond | src/core/agent.py:34-65 | the model sees the rendered history plus the instruction, which is not stored; the text is recorded under `<role>_thoughts` and returned with the decision read from it; a failed request changes nothing |
| CoreAgent.Agent.GenerateResponse | src/core/agent.py:67-84 | the model sees the rendered history; the reply is stored under the agent's role and the returned text equals the stored content; a failed request changes nothing |
| CoreAgent.Agent.AddObservedMessage | src/core/agent.py:112-113 | the history gains the stripped message (before any log write) |
| LegacyAgent.ShouldRespond | agents/agent.py:35-68 | the prompt is context, newline, instruction; a failed request gives `(False, "Error prompting model")`; else the raw text and Yes exactly when it holds the yes marker |
| LegacyAgent.YesNeedsReply | agents/agent.py:52-68 | Yes implies a successful request whose text holds the yes marker |
| Backlog.FindStory | src/core/project_manager.py:34-39 | the first story with the id, or none with it at all |
| Backlog.FindSubtask | src/core/project_manager.py:70-77 | the first story with the id holding such a subtask, and its first such subtask |
| Backlog.AddStoryKeepsIdsIncreasing | src/core/project_manager.py:22-32 | the new id exceeds every existing id, so increasing ids stay increasing |
| Backlog.UpdateStoryKeepsIds | src/core/project_manager.py:41-48 | an update keeps every id, so increasing ids stay increasing |
| Backlog.RemoveStoryKeepsIdsIncreasing | src/core/project_manager.py:50-57 | a delete keeps increasing ids increasing |
| Backlog.FindStoryUnique | src/core/project_manager.py:34-39 | with increasing ids, every story is the one found for its id |
| Backlog.CreateThenRead | src/core/project_manager.py:22-39 | reading the returned id gives the new story |
| Backlog.DeleteThenRead | src/core/project_manager.py:50-57 | after a delete no story with the id is left, every other story remains, and the list is one shorter exactly when one matched |
| Backlog.SubtaskIdsCanRepeat | src/core/project_manager.py:64 | subtask ids count subtasks, so after a delete a new subtask can take an id still in use |
| Backlog.ProjectManager.constructor | src/core/project_manager.py:7-11 | a missing file starts as the empty list |
| Backlog.ProjectManager.CreateUserStory | src/core/project_manager.py:22-32 | appends `{last id + 1 or 1, text, []}` and returns that id |
| Backlog.ProjectManager.ReadUserStory | src/core/project_manager.py:34-39 | some story has the id exactly when a story is returned, and it is the first match |
| Backlog.ProjectManager.UpdateUserStory | src/core/project_manager.py:41-48 | true exactly when a story matched; only the first match's text changes |
| Backlog.ProjectManager.DeleteUserStory | src/core/project_manager.py:50-57 | true exactly when a story matched; only the first match is removed |
| Backlog.ProjectManager.CreateSubtask | src/core/project_manager.py:60-68 | appends `{len + 1, text}` to the first matching story and returns that id; `None` and no change when no story matches |
| Backlog.ProjectManager.SearchSubtasks | src/core/project_manager.py:74-76 | the inner loop finds the first subtask with the id |
| Backlog.ProjectManager.Locate | src/core/project_manager.py:72-76 | the nested loops find the first (story, subtask) pair that matches |
| Backlog.ProjectManager.ReadSubtask | src/core/project_manager.py:70-77 | a subtask is returned exactly when a story with the id holds one with the subtask id, and it is the first match of the nested search, in the first such story |
| Backlog.ProjectManager.UpdateSubtaskText | src/core/project_manager.py:79-88 | true exactly when a pair matched; only that subtask's text changes |
| Backlog.ProjectManager.DeleteSubtask | src/core/project_manager.py:90-99 | true exactly when a pair matched; only that subtask is removed |
| StoryTools.RecordedStoryIsFound | src/core/tools.py:3-29 | with increasing ids the recorded story is found under the returned id |
| StoryTools.StoryFile.RecordUserStory | src/core/tools.py:3-29 | a missing file counts as empty; appends `{last id + 1 or 1, text, []}` and returns the id |
| StoryTools.StoryFile.RecordSubtask | src/core/tools.py:31-54 | the raw value goes to the first story with the id; an unknown id leaves the file untouched |
| SprintPlanning.AgentRepliesAnswer | src/core/agent.py:34-84 | an agent's reasoning and response are the stripped model answers to the decision prompt and to the rendered history |
| SprintPlanning.DeliverHeard | src/gas_event.py:36-41 | after a turn the speaker holds its reasoning and its response, and every other agent the stripped response under the speaker's role |
| SprintPlanning.TurnHeard | src/gas_event.py:36-41 | a completed turn extends each history by what that agent hears of it; any turn only extends histories |
| SprintPlanning.TurnsHeard | src/gas_event.py:36-41 | after the turns, each history is extended by what its agent heard of each turn, in turn order; a speaker never gets its own response twice |
| SprintPlanning.ViewLength | src/gas_event.py:36-41 | each agent hears one message per turn, plus its own reasoning |
| SprintPlanning.RoundHeard | src/gas_event.py:31-41 | a completed round gives every agent the planning text first, then the turns; each history grows by the number of agents plus two |
| SprintPlanning.TurnsAppendOnly | src/gas_event.py:36-41 | histories only grow |
| SprintPlanning.RoundsAppendOnly | src/gas_event.py:31-41 | histories only grow, over any number of rounds |
| SprintPlanning.TurnsStopAtFailure | src/gas_event.py:36-38 | once a model request fails, no later turn happens |
| SprintPlanning.RoundsStopAtFailure | src/gas_event.py:31 | once a round fails, no later round happens |
| SprintPlanning.SeedRound | src/gas_event.py:32-33 | every agent gets the planning text under `product_owner`, stripped |
| SprintPlanning.Broadcast | src/gas_event.py:39-41 | every agent but the speaker gets the stripped response under the speaker's role |
| SprintPlanning.Consider | src/gas_event.py:37 | `should_respond` of one agent in terms of all histories; only the speaker's history changes |
| SprintPlanning.Answer | src/gas_event.py:38 | `generate_response` of one agent in terms of all histories |
| SprintPlanning.TakeTurn | src/gas_event.py:36-41 | one agent's turn: thinking, speaking, then the broadcast after the response is final |
| SprintPlanning.RunRound | src/gas_event.py:31-41 | one pass of the loop: seeding first, then the turns in order |
| SprintPlanning.RunRounds | src/gas_event.py:27-41 | the loop for a given number of rounds, stopping at the first failed request |
| ConductEvent.PresentMembers | src/pages/conduct_event.py:91-97 | the participants are exactly the loaded agents of listed roles |
| ConductEvent.PresentAll | src/pages/conduct_event.py:91-97 | when every role is loaded, nothing is dropped and configuration order is kept |
| ConductEvent.InitializeEvent | src/pages/conduct_event.py:86-102 | no event for an unknown name or an empty configuration; the `KeyError` without a participants key; else the participants in order, with the description defaulting to `""` |
| ConductEvent.ContextSnoc | src/pages/conduct_event.py:147 | a one-entry context is that entry's `"sender: message"` line (`None` for a declined entry); each later entry adds a newline and its line |
| ConductEvent.AgentDeciderDecides | agents/agent.py:35-68 | the participants decide as `agents/agent.py` does |
| ConductEvent.EntriesPerAgent | src/pages/conduct_event.py:148-175 | exactly one entry per non-human participant, in order; it carries the role and reasoning, and a message exactly when the agent decided to respond |
| ConductEvent.Received | src/pages/conduct_event.py:158-160 | nobody receives a response under its own role |
| ConductEvent.ReceivedCount | src/pages/conduct_event.py:158-160 | a participant receives exactly one message per response from another role |
| ConductEvent.GrownStep | src/pages/conduct_event.py:158-175 | a declined entry reaches nobody; a response reaches exactly the participants of other roles |
| ConductEvent.DeliverResponse | src/pages/conduct_event.py:158-160 | every participant of another role, humans included, gets the stripped response |
| ConductEvent.Participate | src/pages/conduct_event.py:150-175 | one non-human participant's decision, delivery and entry |
| ConductEvent.HumansAddNothing | src/pages/conduct_event.py:149-150 | participants that are all human add no entries |
| ConductEvent.FirstAgent | src/pages/conduct_event.py:148-150 | the position of the first non-human participant: all before it are human |
| ConductEvent.ProjectFileStopsAfterFirst | src/pages/conduct_event.py:177-183 | without the project file every participant is processed; with it exactly the first non-human participant's entry is added, or none when all are human |
| ConductEvent.EventSession.RespondInOrder | src/pages/conduct_event.py:148-183 | the history gains the entries of the participants processed, in order, and every participant's history gains what it receives of them; with the project file present this stops after the first non-human participant |
| ConductEvent.EventSession.ProcessAgentResponses | src/pages/conduct_event.py:142-183 | nothing without an event; else the context is fixed once from the history so far, then the participants take their turns as in `RespondInOrder` |

## Left out

- The HTTP requests of both `prompt_model` methods, streamed or not, are the `Model` parameter. Sampling options, endpoints and model names are not modelled.
- Logging, `print`, and the per-agent log file written by `add_observed_message` in `src/core/agent.py` are left out. That file is opened with `w+`, so it only ever holds the last record.
- JSON loading and saving of the story files is left out; the stored list is a field or an `Option` parameter.
- `Backlog.ProjectManager.constructor`: an existing but undecodable story file is not modelled. `load_user_stories` decodes it without a guard (`src/core/project_manager.py:13-15`), so every operation would then raise.
- `ConductEvent.EventSession.RespondInOrder`: only whether `./config/projects.json` exists is modelled. Its truncation by `open(..., 'w')` and the exception that ends the callback are I/O outside the model.
- Timestamps of conversation entries are left out; they come from the clock.
- The Dash callbacks and the formatting of the event page are not part of this model, and neither are the other pages.
- `src/utils/agent_load.py` and `src/utils/event_load.py` are configuration reads; their results are the map parameters of `ConductEvent.InitializeEvent`.
- `ConductEvent.Participant`: the agents the event page loads come from `agents/agent.py`, which has neither `prompt_manager` nor `generate_response`. The model gives each participant a prompt manager of `agents/prompt.py` and takes the response as a `Generator` parameter.
- `ConductEvent.InitializeEvent`: `load_agents` passes a `tools` keyword that the agent class of `agents/agent.py` does not accept (`src/utils/agent_load.py:17-24`). So any non-empty `./config/agents.json` raises `TypeError` when the page module is imported, and the code can only produce the empty agent map. A non-empty `agents` map here stands for what a loader without that error would return.
- `ConductEvent.EventSession.ProcessAgentResponses`, `ConductEvent.EventSession.RespondInOrder`, `ConductEvent.Participate` and `ConductEvent.DeliverResponse` require distinct prompt managers. An event that lists one role twice would alias one agent and is not modelled.
- `SprintPlanning.RunRounds` runs a given number of rounds in place of the endless `while True`.
- `SprintPlanning.RunRound` generalises the two agents of `src/gas_event.py:28-29` to any sequence of agents in a fixed order.
- `Text.Lower`: lower-casing is modelled for ASCII letters only, not for the full Unicode case mapping of `str.lower`.
- `CoreAgent.Agent.constructor` takes a tool table directly. `src/core/agent.py:24` passes a list, which `src/core/prompt.py:5` turns into an empty table when empty and fails on otherwise.
- Exceptions other than a failed model request, such as a malformed reply or missing configuration keys other than `participants`, are not modelled.
