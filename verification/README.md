# Agentgram, modelled and proved in Dafny

Agentgram multiplexes AI agents behind one chat stream. This project models the
protocols and caches around that stream and proves what they keep: over every
behaviour of the LLMs, tools, agents, stores and clients, over whole runs, and
under every interleaving where steps can interleave.

The environment is always an arbitrary parameter: an oracle function (`World`
in `ToolLoop` and `Moderator`), a list of inputs (`TurnInput`, `Call`), or a
`Fault` per store operation, which may take effect and say so, fail without
effect, or fail although it took effect.

| file | what it is about |
|---|---|
| `ToolLoop`, `ToolLoopStream`, `ToolLoopMessage`, `ToolLoopLaws`, `ToolLoopParallel` | the LLM and tool-call loop: its event grammar, the saved message, parallel against sequential execution |
| `TurnErrors`, `Turn`, `TurnLaws`, `Transcript` | one agent turn on the web and on the MCP surface, its error kinds, the stored and the in-memory transcript |
| `Moderator`, `Debate`, `DebateLaws`, `DebateLifecycle`, `DebateAgreement` | the moderated debate: who speaks, the web run, the MCP call, and that both tell the same story |
| `GroupSession` | creating or resuming a group session with compensation |
| `RunLog`, `RunLogSafety`, `RunLogGaps`, `RunLogFlag` | the run log and the reconnect protocol as a step system with any number of runs and readers: what readers get, when replays have gaps, what the in-flight flag means |
| `RunLogLoop`, `RunLogLaws`, `RunLogRuns`, `RunLogReaders` | the chat handler and the read loop behind those steps |
| `RateLimit`, `RateLimitLaws`, `RateLimitRace` | token buckets per agent and user, eviction, and the split-step race on first use |
| `Context`, `ContextLaws`, `Conversation` | what an agent of a group is told: the messages it missed, in a bounded window; and when, over a whole conversation, it is told each of them once |
| `OutboundHeaders`, `OutboundAuth`, `OutboundLaws`, `Registry`, `RegistryLaws` | the headers an MCP request goes out with and whose credential it carries, MCP clients and their registry |
| `ToolNames` | the advertised tool names, their dispatcher and the multi-server tool map |
| `GeminiSchema`, `Resolver`, `Headers` | the schema rewriter, the provider cache and the bounded groups header |

Code that works step by step is a method or a class here, proved equal to a
specification function (`Run`, `WebTurn`, `GroupActs`, `Open`, `AllowStep`,
`Resolve`, ...); the lemmas then speak about those functions. The reconnect
protocol is a state machine over labelled steps, since its point is concurrency.
What those functions mean is stated without them, on inputs and constructors,
by the lemmas of the `Laws` modules and of `RunLogLoop`.
`dafny verify dfyconfig.toml` verifies the project.

## Where the code does not meet its own comments or promises

Each of these is stated as a lemma, most of them as an exact condition.

- `api/internal/handlers/proxy.go:459-463` says that no active run means the reply is saved. On an answered lookup that
  holds for a run that set its flag unless another run took the flag from it (`InactiveMeansSaved`). A history keeps the
  promise at every point exactly when no run clears the flag while another that set it is in flight
  (`KeptThroughoutWhen`), and every history of a session does exactly when it has fewer than two runs (`KeepsPromiseWhen`).
  A failed lookup also reads as "no active run" (`api/internal/store/redis.go:676-679`, `FailedLookupMisleads`), and so does
  a flag that `SetActiveRun` failed to set, because its error is ignored (`UnsetFlagMisleads`).
- `api/internal/handlers/run_stream.go:137-139` promises a replay without gaps. The buffer is trimmed to about
  5000 events (`api/internal/store/redis.go:615`): no history of streams of at most n events leaves a gap exactly when the
  buffer keeps n (`GapFreeWhen`).
- `api/internal/mcp/loop.go:114` drops streamed text exactly when every requested call was skipped and no final text came
  although some reply showed a text beside its calls (`WhenStreamedContentIsLost`, `StreamedTextCanBeLost`).
- `api/internal/store/redis.go:355-399` merges a user message that repeats one of the last five, while the handler
  appends it to its in-memory copy (`UserMessageKeepsTranscript`, `RepeatedMessageParts`).
- `api/internal/handlers/group_chat.go:332-343` forgets an agent failure reported inside the result when saving
  failed too (`SameAgentFailureWhen`, `ForgottenFailure`); only the MCP surface saves empty replies, maps their sessions and remembers them
  (`SameLostReplyWhen`, `SameMappingsWhen`, `SameMemoryWhen`, `EmptyReplyParts`).
- `api/internal/store/redis.go:115-120` may leave a session behind when `CreateSession` fails; nothing compensates it
  (`FailedCreateResidue`, `HalfCreatedStays`).
- `api/internal/mcp/registry.go:211-214` promises that a configured Authorization header is not overwritten by a stale
  token. A request sets the client's headers, the per-request ones and the caller's identity one after the other, each map
  in random order (`api/internal/mcp/client.go:345-355`), and the last that has a header decides (`SentWhen`). So a
  configured header loses to any per-request header of that name (`ConfiguredValueSentWhen`, `ResolvedValueSentWhen`): on a
  server with key rules a web user without a rule sends the shared token whatever is configured
  (`FallbackReplacesConfigured`, `RenewedHeaderIsReplaced`), and in a chat over several servers every call carries the
  credential of one of them (`ChatValueSentWhen`). Without such a header it still loses in some order when it is configured
  only in another spelling than the credential's (`StaleCredentialSent`).
- `api/internal/mcp/registry.go:47-49` says that on a server with key rules each request carries the calling user's key.
  Tool calls over MCP never resolve the rules (`api/internal/mcpserver/handler.go:755-778`): the two surfaces send the same
  headers exactly when the server forwards, has no rules, or the key is empty (`SurfacesResolveAlikeWhen`,
  `McpValueSentWhen`).
- `api/internal/proxy/context.go:64-66` sends an agent what was said since its last interaction, and
  `api/internal/proxy/context.go:198-200` wants context sent again after a failure. Each missed message is told once, and in
  order, exactly when every step of the conversation is orderly (`KeptWhen`). That fails when a reply is stored between
  another agent's selection and its reply, as in parallel answers (`OvertakenIsLost`, `ParallelReplyIsLost`); when a turn
  renews the agent's session and fails, since its notice counts as a success (`RenewedAndFailedIsLost`,
  `NoticeEndsDelta`); when an answer could not be stored (`LostReplyIsToldAgain`); and on a first contact with more than ten
  messages (`FirstContactKeepsWhen`, `OlderRepliesAreLost`). While turns follow one another it holds (`ToldOnceEach`).
- `api/internal/mcp/registry.go:148-155` reuses a client whose server's endpoint is unchanged, with the headers of the row
  it was built from, so an edited header or token is not sent (`EditKeepsHeaders`, `ReusedClientSentWhen`).
- `api/internal/middleware/ratelimit.go:44-61`: eviction is invisible exactly for a positive rate (`EvictionInvisibleWhen`),
  and requests that miss together each get a full bucket (`TwoMissesTwoLimiters`).
- `api/internal/mcpserver/server.go:411-421`: a server ID that contains `__` or ends in `_` is read back as another one
  (`PairRoundTrip`).

## Model

| member | source | states |
|---|---|---|
| ToolLoop.RunLoop | api/internal/mcp/loop.go:84-320 | the loop streams, returns and saves exactly what the reference run does for every environment; without a flushable writer it does nothing at all; it saves once, on every way out, exactly when there is final text or a stored call |
| ToolLoop.Resolve | api/internal/mcp/loop.go:168-187 | skipped calls vanish, the others keep their order and get consecutive fresh ids |
| ToolLoop.ExecuteSequential | api/internal/mcp/loop.go:237-260 | START, ARGS and END of one tool are written before the next tool starts; results land at the tool's own index |
| ToolLoop.CollectCompletions | api/internal/mcp/loop.go:224-235 | whatever order the goroutines finish in, every result lands at its own index and one END is written per completion |
| ToolLoop.ExecuteParallel | api/internal/mcp/loop.go:192-236 | all STARTs come first, then the ENDs in completion order, and the same results array as the tools' own outcomes |
| ToolLoop.EmitTextMessage | api/internal/mcp/loop.go:406-411 | a text message is one START, CONTENT, END triple under one id |
| ToolLoopStream.StreamIsWellFormed | api/internal/mcp/loop.go:84-320 | for every LLM and tool behaviour, in either mode, the stream is accepted by the AG-UI grammar and ends with nothing open |
| ToolLoopStream.AcceptedLifecycle | api/internal/mcp/loop.go:97-320 | an accepted stream has RUN_STARTED first and only there, and one RUN_FINISHED or RUN_ERROR, last and only there |
| ToolLoopStream.AcceptedTexts | api/internal/mcp/loop.go:406-411 | in an accepted stream texts are uninterrupted START, CONTENT, END under one id |
| ToolLoopStream.AcceptedToolCalls | api/internal/mcp/loop.go:414-427 | in an accepted stream each tool START is followed at once by its ARGS and later by exactly one END |
| ToolLoopStream.DisconnectedWarningIsQuiet | api/internal/mcp/chat.go:219-229 | the warning a multi-server chat writes at the start is an allowed start for the grammar theorem |
| ToolLoopMessage.SavedMessageIsExact | api/internal/mcp/loop.go:262-319 | after any number of rounds, failed or not: calls and results match pointwise, tool parts carry 0..n-1 in order, the conversation is the input plus one matched pair per resolved call, tokens are summed exactly, Rounds counts the LLM calls within the maximum |
| ToolLoopMessage.ErrorIsReported | api/internal/mcp/loop.go:131-142 | the stream ends in RUN_ERROR exactly when the last LLM call failed, with its message |
| ToolLoopMessage.SavedMessageReplaysStream | api/internal/mcp/loop.go:144-280 | the saved parts and calls, rendered in order, are what the stream showed |
| ToolLoopMessage.WhenStreamedContentIsLost | api/internal/mcp/loop.go:108-116 | streamed content is not saved exactly when, told from the replies and resolutions alone, every requested call was skipped in every round, no reply ended the loop with a text, and some reply showed a text beside its calls; what an unsaved run stored is text only |
| ToolLoopMessage.StreamedTextCanBeLost | api/internal/mcp/loop.go:114 | a concrete run that shows text and saves nothing |
| ToolLoopLaws.SavedMessageMeans | api/internal/mcp/loop.go:108-128 | the message handed to the store: its text is that of the last reply if that asked for no tool, else empty; its calls and results are the resolved calls of all replies, pointwise; its tool parts count 0..n-1; rendering its parts with its calls gives what was streamed; and it is handed over exactly when there is a text or a call |
| ToolLoopLaws.RoundsMean | api/internal/mcp/loop.go:131-166 | at most ten LLM calls, or as many as configured; all but the last asked for tools, and the last failed, asked for none or was the last allowed |
| ToolLoopLaws.StreamShowsCalls | api/internal/mcp/loop.go:189-260 | for every stored call the stream holds a START with the server and name it resolved to, its arguments and its output, under its id, in either mode |
| ToolLoopLaws.MetricsMean | api/internal/mcp/loop.go:192-260 | every stored call is measured once under the name shown, in order unless calls run in parallel |
| ToolLoopParallel.ParallelRefinesSequential | api/internal/mcp/loop.go:189-306 | for every completion order, parallel mode stores, feeds back, sums and ends as sequential mode does; events and tool metrics agree as multisets, durations aside |
| TurnErrors.TurnErrorKinds | api/internal/orchestrator/orchestrator.go:74-82 | the kinds found are exactly the kinds carried anywhere in the error tree, in the fixed order |
| TurnErrors.RecordedFailures | api/internal/orchestrator/orchestrator.go:59-92 | a recorded turn reports a kind exactly when its error carries it, and an error without a storage failure counts as the agent's |
| TurnErrors.JoinKeepsKinds | api/internal/orchestrator/orchestrator.go:94-111 | joining errors keeps every failure of both sides and invents none |
| TurnErrors.CarriesWhatItWraps | api/internal/orchestrator/orchestrator.go:94-111 | an error carries a kind or a cause exactly when something it wraps, at any depth and on any branch of a join, is tagged with it or is it |
| TurnErrors.KindsMean | api/internal/orchestrator/orchestrator.go:59-82 | the kinds listed in their order, and the one kind: persistence before mapping, and the agent's for any other error |
| Turn.Session.HandleAgent | api/internal/proxy/sse.go:162-218 | an agent streaming inside a debate adds no lifecycle event; its RUN_ERROR becomes a scoped event |
| Turn.Session.PersistTurnResult | api/internal/handlers/proxy.go:651-722 | which messages are saved in which order, the mapping only after an error-free turn whose reply was saved, and one joined error for everything that failed |
| Turn.Session.RunWebTurn | api/internal/handlers/group_chat.go:239-343 | one streamed turn: what is streamed, saved, remembered and mapped, the text and the error it returns |
| Turn.Session.RunMcpTurn | api/internal/mcpserver/group.go:358-446 | the same for one collected turn |
| TurnLaws.PersistMeans | api/internal/handlers/proxy.go:651-722 | a turn saves its reply once exactly when that has a text, a part, a tool call or an error, after a notice exactly when the session was renewed; a mapping follows exactly after an error-free, saved reply with a new session, which is mapped before our own, or on first contact; the error tells exactly an unacknowledged store call |
| TurnLaws.CollectMeans | api/internal/mcpserver/group.go:393-446 | over MCP every reply is saved, empty or not, remembered once saved, and mapped under the same condition |
| TurnLaws.WebTurnMeans | api/internal/handlers/group_chat.go:239-343 | a web turn announces its speaker, then runs, saves and remembers in that order; past the deadline or without its mapping it does nothing more and says so |
| TurnLaws.AgentShows | api/internal/proxy/sse.go:162-218 | an agent in a debate shows no lifecycle event, its error as a scoped one and everything else as it is |
| Transcript.UserMessageKeepsTranscript | api/internal/store/redis.go:355-399 | after the user message, memory is a subsequence of the store exactly when the message repeats none of the last five |
| Transcript.AddMessageMeans | api/internal/store/redis.go:355-399 | a message is appended unless it repeats a user message among the last five; then the latest of these takes over its agents, each once, and everything else stays |
| Transcript.RepeatedMessageParts | api/internal/store/redis.go:355-399 | one repeated message that memory has twice and the store once |
| Transcript.TranscriptIsStored | api/internal/handlers/proxy.go:651-722 | along any run that remembers only what was just saved, memory is at every point a subsequence of the stored messages |
| Transcript.ModeratorTextSavedFirst | api/internal/handlers/group_chat.go:363-370 | in such a run a moderator text reaches the stream only after its save was acknowledged |
| Moderator.Debate | api/internal/orchestrator/orchestrator.go:255-313 | every recorded turn is the one decided from the turns before it; the debate ends at the turn limit with its own error, or at the first decision to stop, with that decision's error |
| Moderator.SpeakersAreOnRoster | api/internal/orchestrator/orchestrator.go:217-249 | only agents of the roster ever speak |
| Moderator.DecisionMeans | api/internal/orchestrator/orchestrator.go:217-291 | told from the context error, the answers and the results: a finish stops cleanly unless the last reply asks for a handoff, when the moderator is asked once more and on a second finish the first agent not yet attempted speaks; a failed answer gives an error that wraps it, an empty or foreign name the protocol error |
| Moderator.EndsCleanlyWhen | api/internal/orchestrator/orchestrator.go:255-313 | a debate below its turn limit ends without an error exactly when the context was fine, the answer that decided was a finish, and nobody was left to hand over to |
| Context.LastInvolved | api/internal/proxy/context.go:187-209 | the search that also considers broadcasts always stops at the agent's own last success |
| Context.StartExact | api/internal/proxy/context.go:187-209 | that point is right after a success of the agent, or the beginning, and no success follows it |
| Context.CalculateDelta | api/internal/proxy/context.go:182-237 | the delta is, in order, the messages after that point from other agents and from users who did not address the agent |
| Context.AllMessagesExceptLast | api/internal/proxy/context.go:154-178 | on first contact: the newest ten messages that may be sent, without the latest equal to the new one |
| Context.BuildContext | api/internal/proxy/context.go:262-310 | the context tells the k newest contributions, each within 4000 characters, where one more would not fit, and discloses any cut |
| Context.WindowIsBounded | api/internal/proxy/context.go:262-310 | at most 8 contributions and 24000 characters, and k is the only number for which that holds |
| Context.PrepareMessages | api/internal/proxy/context.go:70-148 | context goes out exactly when it is wanted and something was missed; it is the summary that was asked for and given, else the window, and within 24000 characters either way |
| Context.TellsAllWhen | api/internal/proxy/context.go:262-310 | the window tells a whole catch-up exactly when that has at most eight messages whose lines fit together, none oversized, and none that is blank, the moderator's, an error or a system message |
| Context.WholeCatchUpWhen | api/internal/proxy/context.go:119-138 | so a request without a summary carries all it missed, uncut, when that fits |
| ContextLaws.DeltaMeans | api/internal/proxy/context.go:182-237 | by position: an agent with a session catches up, in order, on exactly the messages from others after its last own success |
| ContextLaws.FirstContactMeans | api/internal/proxy/context.go:154-178 | by position: an agent without one catches up on the newest ten messages, errors, system messages and the latest copy of the request aside |
| ContextLaws.WindowMeans | api/internal/proxy/context.go:262-310 | by position: the newest tellable messages, at most eight and as many as fit 24000 characters with the note, which is there exactly when one is missing or was cut |
| ContextLaws.LineMeans | api/internal/proxy/context.go:279-294 | a line names the agent, or the user by name, e-mail or not at all, and tells at most 4000 characters |
| ContextLaws.SummaryWhen | api/internal/proxy/context.go:117-119 | a summary is asked for exactly when there is a summarizer and a positive limit and the bytes of all contents over four exceed the limit times the threshold |
| ContextLaws.SummaryMeans | api/internal/proxy/context.go:121-129 | a summary that fits 24000 characters with heading and note goes out whole, any other cut to just that |
| Conversation.KeptWhen | api/internal/proxy/context.go:70-104 | however storing and selecting interleave, all an agent has missed is at every point told once and in order or still to be told, exactly when every step is orderly: nothing missed between the latest selection and a success of the agent, nothing selected twice, and a first contact that selects just what is left |
| Conversation.OvertakenIsLost | api/internal/proxy/context.go:182-237 | after any history, a message stored between an agent's selection and its reply is not in that selection and lies before the agent's success in every continuation |
| Conversation.ParallelReplyIsLost | api/internal/proxy/context.go:182-237 | a concrete message answered by two agents in parallel, of whom the slower is never told the faster one's reply |
| Conversation.RenewedAndFailedIsLost | api/internal/handlers/proxy.go:660-698 | after any history, a renewal notice followed by an error reply puts all that was still to be told before the agent's last success |
| Conversation.NoticeEndsDelta | api/internal/handlers/proxy.go:660-698 | a concrete failed turn whose notice loses another agent's reply |
| Conversation.LostReplyIsToldAgain | api/internal/handlers/proxy.go:694-698 | an answer that was not stored makes the same message be told twice |
| Conversation.FirstContactKeepsWhen | api/internal/proxy/context.go:154-178 | a first contact tells all that was missed, the request aside, exactly when nothing missed is older than the newest ten messages |
| Conversation.FirstContactOrderlyWhen | api/internal/proxy/context.go:90-97 | for an agent told nothing so far, a first contact is orderly exactly when that holds and the request itself is not among what it missed |
| Conversation.OlderRepliesAreLost | api/internal/proxy/context.go:174-177 | of any number of missed replies beyond ten a first contact tells ten, and all are past after the answer |
| Conversation.ToldOnceEach | api/internal/proxy/context.go:182-237 | while an agent's turns follow one another, each selection right before its reply, every such conversation is kept throughout, and an error reply makes its delta come again |
| Debate.DistinctRespondingSpeakers | api/internal/handlers/group_chat.go:681-689 | counts each agent that gave text in a turn without an agent failure once |
| Debate.DebateIncompleteReason | api/internal/handlers/group_chat.go:453-475 | the loop computes the reason that the relation below explains |
| Debate.ReasonExplains | api/internal/handlers/group_chat.go:450-475 | a moderator error outranks lost turns, the first lost turn decides between persistence and mapping, persistence first within a turn, and total agent failure comes last |
| Debate.CompleteWhen | api/internal/handlers/group_chat.go:453-475 | no reason is given exactly when the moderator ended the debate, nothing was lost, and somebody answered or nobody was asked |
| Debate.GroupChat | api/internal/handlers/group_chat.go:228-448 | the whole web run, act by act: start, turns, announcement, note, closing message, terminal event |
| DebateLaws.OutcomeTells | api/internal/handlers/group_chat.go:352-448 | what follows the turns, word by word, without the run's own functions: announcement, note, last word, each saved before it is shown, and the terminal event |
| DebateLaws.ModeratorSays | api/internal/handlers/group_chat.go:380-438 | with its saves acknowledged the moderator shows the note of an incomplete debate, if it has one, and then its last word: that nobody can help without results, that all failed without an answer, the consolidation of a complete debate of two agents in time, else nothing |
| DebateLaws.ConsolidatesWhen | api/internal/handlers/group_chat.go:418-438 | a consolidation is shown exactly when the debate is complete, two distinct agents answered, the deadline has not passed and its text is not empty |
| DebateLaws.FinishesWhen | api/internal/handlers/group_chat.go:371-448 | a run ends in RUN_FINISHED exactly when the moderator did not fail before anybody spoke and every message it had to say was saved |
| DebateLaws.TurnsMean | api/internal/handlers/group_chat.go:239-343 | each turn runs on what the turns before it mapped and is recorded with its agent, text and error |
| Debate.EmitModeratorMessage | api/internal/handlers/group_chat.go:363-378 | a moderator message is saved, then remembered, then streamed; a failed save announces the loss and ends the run |
| Debate.CallGroup | api/internal/mcpserver/group.go:448-532 | the MCP call: a section per turn, the early-end note, the synthesis and its save, and the error flag |
| DebateLaws.CallTells | api/internal/mcpserver/group.go:448-532 | what the call returns: a refusal, the nobody-helps text, or a section per turn with its text and what went wrong, the note, the consolidation under the same conditions without a deadline, and whether it is unsaved |
| DebateLifecycle.OneTerminalLast | api/internal/handlers/group_chat.go:228-448 | once RUN_STARTED is written a run has exactly one terminal event, last, and no other lifecycle event; if that write fails it sends nothing more |
| DebateLifecycle.FinishedIsNotSilent | api/internal/handlers/group_chat.go:352-448 | RUN_FINISHED means somebody answered or the moderator spoke, all moderator messages were saved, and the moderator did not fail before anyone spoke |
| DebateLifecycle.LossIsAnnounced | api/internal/handlers/group_chat.go:371-448 | any save or mapping that goes unconfirmed in a started run, or a turn with a storage failure, is followed by debate.incomplete after the turns and before the terminal event |
| DebateLifecycle.AnnouncedWhen | api/internal/handlers/group_chat.go:371-445 | after the turns of a debate that got going, debate.incomplete is sent exactly when there is a reason or a moderator message could not be saved |
| DebateLifecycle.RunWatched | api/internal/handlers/group_chat.go:228-448 | every web run remembers only what it just saved and streams moderator texts only once remembered |
| DebateLifecycle.TranscriptStaysStored | api/internal/handlers/group_chat.go:324-370 | at every point of every web run memory is a subsequence of the store, and each moderator text was saved before it was streamed |
| DebateAgreement.SameMapping | api/internal/mcpserver/group.go:416-446 | with persistable content both surfaces map the same agent session, only after an error-free turn whose reply was saved, and return the same text |
| DebateAgreement.SameTargetWhen | api/internal/mcpserver/group.go:416-446 | on any turn both surfaces want the same mapping exactly unless MCP alone saves an empty, error-free reply whose agent session is new; the text is always the same |
| DebateAgreement.SameMappingAfterWhen | api/internal/mcpserver/group.go:429-446 | any turn leaves both surfaces with the same mapping exactly unless it is such a turn and its mapping takes effect |
| DebateAgreement.SameLostReplyWhen | api/internal/handlers/proxy.go:651-698 | both surfaces report a lost reply alike exactly when the agent error says so already or both lose it |
| DebateAgreement.SameAgentFailureWhen | api/internal/handlers/group_chat.go:326-343 | both report the agent failure alike except when it was inside the result and the web surface also lost the turn |
| DebateAgreement.ForgottenFailure | api/internal/handlers/group_chat.go:332-343 | a concrete turn whose agent failure only MCP reports |
| DebateAgreement.AgreeableExactly | api/internal/handlers/group_chat.go:290-343 | the condition on a turn, its result and its faults, that holds exactly when both surfaces want the same mapping and report a lost reply alike |
| DebateAgreement.DebatesMatch | api/internal/mcpserver/group.go:358-446 | over any list of turns each meeting that exact condition, empty replies and lost notices included, both surfaces end with the same mappings and matching results |
| DebateAgreement.SameMappingsWhen | api/internal/mcpserver/group.go:358-446 | over any list of turns the mappings agree throughout exactly when no turn parts them |
| DebateAgreement.SameMemoryWhen | api/internal/mcpserver/group.go:416-428 | over any list of turns both surfaces remember the same replies exactly when MCP saved no empty one |
| DebateAgreement.ErrorFlagMeansIncomplete | api/internal/mcpserver/group.go:500-531 | isError holds exactly when a reason would be given or the synthesis could not be saved, and the synthesis gates coincide |
| DebateAgreement.SurfacesAgree | api/internal/mcpserver/group.go:448-532 | end to end, on turns that each meet that condition: same mappings, same reason, same gate for the synthesis, and isError exactly when the web run is incomplete, synthesis save aside |
| DebateAgreement.EmptyReplyParts | api/internal/mcpserver/group.go:416-428 | a concrete debate that is complete on the web and a persistence failure over MCP |
| GroupSession.Backend.WebOpen | api/internal/handlers/group_chat.go:141-175 | session and first message on the web surface leave the store the common opening leaves, with its own error names |
| GroupSession.Backend.GetOrCreateGroupSession | api/internal/handlers/group_chat.go:528-584 | which refusal each failing step gives, and what the store holds then |
| GroupSession.Backend.McpOpen | api/internal/mcpserver/group.go:286-351 | the MCP surface leaves the same store as the web surface and refuses in the same cases |
| GroupSession.Backend.DeleteOrphanSession | api/internal/handlers/group_chat.go:588-598 | cleanup removes the group index entry, the session, its owner index entry and its agent mappings, each as far as it takes effect |
| GroupSession.CreatedWhole | api/internal/handlers/group_chat.go:551-584 | success leaves a flagged session with the user's message in both indices, and changes nothing else |
| GroupSession.FailureLeavesNothing | api/internal/handlers/group_chat.go:562-598 | after a failed step, whether or not it took effect, the store is as before exactly when the cleanup reached what was left |
| GroupSession.FailedCreateResidue | api/internal/store/redis.go:98-125 | a failed CreateSession leaves nothing exactly when none of its commands took effect, and never a group index entry |
| GroupSession.HalfCreatedStays | api/internal/store/redis.go:115-120 | a concrete failed creation that leaves an unindexed session |
| GroupSession.ResumeNeverCreates | api/internal/handlers/group_chat.go:531-549 | a request with a session_id creates no session and changes at most that session, of that owner and group |
| GroupSession.MemoryMirrorsStore | api/internal/handlers/group_chat.go:162-174 | after a successful opening memory is a subsequence of the store exactly unless the message was merged |
| GroupSession.NewAnswers | api/internal/handlers/group_chat.go:551-584 | a new session is refused by its first step that is not acknowledged, each with its own problem, and ready exactly when all are |
| GroupSession.NewIndices | api/internal/handlers/group_chat.go:551-598 | which index entries a new session leaves, entry by entry: of each step that took effect up to the first unacknowledged one, less each part of the cleanup that took effect |
| GroupSession.NewLeaves | api/internal/handlers/group_chat.go:551-598 | which session it leaves: as far as it got, plain, flagged or with the user's message, unless the cleanup took it; every other session is as it was |
| GroupSession.ResumeAnswers | api/internal/handlers/group_chat.go:531-549 | a named session is refused by the first of: lookup, existence, group, owner, message; and ready, with the message appended, exactly when none fails |
| RunLog.ReplayLoop | api/internal/handlers/run_stream.go:140-176 | the read loop delivers and exits as the reader transitions do, for every sequence of read responses |
| RunLogLoop.ReplayMeans | api/internal/handlers/run_stream.go:140-176 | on every list of responses the events delivered are the first offered ones, up to and including the first RUN_FINISHED or RUN_ERROR, up to the first failed write, or all; the loop says it saw the end exactly in the first case, and the cursor is one past the last delivery |
| RunLogLaws.ReaderMoves | api/internal/handlers/run_stream.go:103-176 | when each step of a reader can take place and where it leads: length before flag before giving up, reading while something is unread, doubting when nothing is |
| RunLogLaws.DeliveryMeans | api/internal/handlers/run_stream.go:156-173 | a delivery advances the cursor past the event; a failed write delivers nothing and ends the reader, RUN_FINISHED and RUN_ERROR end it after their delivery, and nothing else does |
| RunLogLaws.RunMoves | api/internal/store/redis.go:645-673 | the steps of a run take place in one order; which marks, stream and flag they change as far as they take effect; a run clears no flag but its own |
| RunLogLaws.RunAppends | api/internal/store/redis.go:629-644 | which event each step appends to the current stream when it is buffered, and that all others append nothing |
| RunLogLaws.TrimMeans | api/internal/store/redis.go:612-644 | trimming leaves at least 5000 events, touches the current stream only and gives nothing back |
| RunLog.StepKeepsInv | api/internal/store/redis.go:630-655 | every step of any run or reader keeps the log, run and reader invariants |
| RunLog.Reachable | api/internal/handlers/run_stream.go:140-176 | so they hold after every interleaving |
| RunLogSafety.ReplayIsPrefixes | api/internal/handlers/run_stream.go:137-165 | a reader's deliveries only go forward and are, of each stream that fits the buffer, exactly a prefix: no gap, no duplicate |
| RunLogGaps.GapFreeWhen | api/internal/handlers/run_stream.go:137-165 | no history of any runs and readers whose streams hold at most n events leaves a reader with a gap, exactly when n is within the buffer |
| RunLogGaps.OutgrownStreamLeavesGap | api/internal/store/redis.go:612-644 | a history of one run that sends one event more than the buffer keeps and a reader that never gets the first |
| RunLogSafety.TrimmedIsPassedOver | api/internal/store/redis.go:630-643 | the read behind every gap: an event trimmed before it is not delivered and all it returns lies beyond |
| RunLogSafety.TerminalEndsDelivery | api/internal/handlers/run_stream.go:168-172 | a reader delivers at most one terminal event and nothing after it |
| RunLogSafety.StoppedReaderIsComplete | api/internal/handlers/run_stream.go:156-173 | a reader that stopped on a terminal event has delivered everything its run still had in that stream |
| RunLogSafety.StoppedReaderHasWholeRun | api/internal/store/redis.go:645-655 | in every interleaving that is the run's whole buffered log, trimming aside, unless the stream was deleted in the middle of that run |
| RunLogSafety.LoopIsSteps | api/internal/handlers/run_stream.go:156-173 | serving a batch in the loop is delivering its events step by step |
| RunLogReaders.ReadersFollowTheLoop | api/internal/handlers/run_stream.go:140-176 | in every interleaved history, expired windows, lookups and departures included, what a reader past the 204 check has delivered and why it left is what the read loop gives on the responses the reader got |
| RunLogFlag.FlagNamesLastSetter | api/internal/store/redis.go:645-673 | while a run is in flight with its flag set, the flag names it exactly when no later run took it over |
| RunLogFlag.InactiveMeansSaved | api/internal/handlers/run_stream.go:105-110 | in every interleaving, a 204 or inactive exit on an answered lookup finds each run that set its flag over, and persisted if it started, unless another run took the flag from it |
| RunLogFlag.LastSetterSaved | api/internal/handlers/run_stream.go:105-110 | with distinct tokens the last run that set the flag is then always over and persisted if it started |
| RunLogFlag.KeptThroughoutWhen | api/internal/store/redis.go:657-673 | a history finds every run that set its flag over, and persisted if it started, whenever nothing is flagged, exactly when no run ever clears the flag while another that set it is in flight |
| RunLogSafety.FinishedMeansSaved | api/internal/handlers/proxy.go:608-622 | RUN_FINISHED in the log means the run was persisted without error and every save and mapping it needed was confirmed |
| RunLogFlag.KeepsPromiseWhen | api/internal/handlers/proxy.go:459-480 | every history finds flagged, started runs persisted at an answered give-up exactly when the session has fewer than two runs |
| RunLogFlag.OverlapBreaksPromise | api/internal/handlers/proxy.go:459-480 | of any two or more runs the second can clear the flag, so that a reader gets 204 while the first is live and unsaved |
| RunLogFlag.FailedLookupMisleads | api/internal/store/redis.go:676-679 | in any session a failed lookup gives a reader 204 while a flagged run is live and unsaved |
| RunLogFlag.UnsetFlagMisleads | api/internal/handlers/proxy.go:464-480 | and so does an answered lookup when the flag could not be set |
| RunLogRuns.ChatHandler.Chat | api/internal/handlers/proxy.go:472-622 | the handler announces the run, streams, persists the turn and picks the terminal event from what that returned, in the order of its steps; the deferred clear also ends a run whose start could not be written; the mapping is the one persistence leaves |
| RunLogRuns.FinishesWhen | api/internal/handlers/proxy.go:608-622 | a chat run sends RUN_FINISHED exactly when the call and the result report no error and every store call the turn needed was acknowledged, else RUN_ERROR |
| RunLogRuns.HandlerSendsItsSteps | api/internal/handlers/proxy.go:472-622 | the events among what the handler does are those the protocol steps send |
| RunLogRuns.StepAppends | api/internal/store/redis.go:629-644 | a step appends exactly the events it sends, in order, as the run's in the current stream, when they are buffered |
| RunLogRuns.ChatRunsThrough | api/internal/handlers/proxy.go:472-622 | the handler's steps all take place from idle and leave the run over, persisted exactly when it started |
| RunLogRuns.RunsFollowTheHandler | api/internal/handlers/proxy.go:472-622 | in every interleaved history each run's steps are a prefix of the handler's, and all of them once it is over |
| RateLimit.RateLimiter.Allow | api/internal/middleware/ratelimit.go:65-99 | one request on the nested map: found or new bucket, at most one token taken, last use updated |
| RateLimit.RateLimiter.Cleanup | api/internal/middleware/ratelimit.go:44-61 | a sweep drops exactly the entries idle for more than ten minutes and agents left empty |
| RateLimitLaws.AllowMeans | api/internal/middleware/ratelimit.go:65-99 | in plain numbers: a request is granted exactly with a token available, of a bucket that holds a tenth of the rate and refills a sixtieth of it per second, takes one, and changes no other key |
| RateLimitLaws.SweepMeans | api/internal/middleware/ratelimit.go:44-61 | a sweep keeps exactly the entries used within ten minutes and the agents that have one |
| RateLimit.AllowLevels | api/internal/middleware/ratelimit.go:65-99 | a request is granted exactly when its key has a token, and takes from no other key |
| RateLimit.EvictionInvisibleWhen | api/internal/middleware/ratelimit.go:28-98 | over all histories of requests and sweeps, evicting changes no answer exactly when the rate is at least one per minute |
| RateLimit.RateBound | api/internal/middleware/ratelimit.go:28-98 | in every window a key is granted at most the burst plus the rate times the window, with or without sweeps |
| RateLimit.NoBoundWithoutRefill | api/internal/middleware/ratelimit.go:28-61 | with a rate of zero or less a sweep breaks that bound |
| RateLimitRace.RaceBound | api/internal/middleware/ratelimit.go:65-99 | with lookup, installation and taking as separate steps, a key is granted at most that bound once per limiter it has had |
| RateLimitRace.TwoMissesTwoLimiters | api/internal/middleware/ratelimit.go:78-92 | two requests that miss together are both granted although the burst is one |
| Registry.Client.Initialize | api/internal/mcp/client.go:73-120 | a stale server session is terminated and the handshake retried once; only success marks the client initialized and a returned session ID replaces the old one |
| RegistryLaws.HandshakeMeans | api/internal/mcp/client.go:73-120 | success and session ID of a handshake, case by case: accepted, refused, or retried after the old session was terminated |
| Registry.Client.Reconnect | api/internal/mcp/client.go:134-145 | a new connection and numbering, and a client initialized exactly when the new handshake succeeded |
| Registry.Client.ListTools | api/internal/mcp/client.go:160-178 | an uninitialized client lists nothing and sends nothing |
| OutboundHeaders.MergeHeaders | api/internal/mcp/registry.go:215-229 | configured headers are copied over the shared credential |
| OutboundHeaders.FilterHeaders | api/internal/security/ssrf.go:120-141 | what is left are exactly the headers that are not blocked |
| OutboundHeaders.SetHeaders | api/internal/mcp/client.go:345-347 | setting headers in some order leaves under each canonical name the last value set |
| OutboundHeaders.CanonExact | api/internal/mcp/client.go:345-347 | two names are one header on the wire exactly when they are equal or tokens that differ only in case |
| OutboundHeaders.PrepareRequest | api/internal/mcp/client.go:345-355 | the client's headers, the per-request ones, both filtered, and the identity are set in that order |
| OutboundHeaders.SentWhen | api/internal/mcp/client.go:345-355 | a header goes out with a value in every walk of the three maps exactly when the last of them that has it in any spelling gives all its spellings that value |
| OutboundHeaders.ConfiguredValueSentWhen | api/internal/mcp/registry.go:211-229 | for all per-request and identity headers: a configured header that is not blocked goes out as configured in every walk exactly when the identity, or else the per-request headers, give it that value, or neither has it, the row gives it one value and it is not the credential's header only in another spelling with another value |
| OutboundHeaders.ReusedClientSentWhen | api/internal/mcp/registry.go:148-155 | the same for a client built from an earlier row: where nothing later sets the header, the earlier row's map decides |
| OutboundHeaders.StaleCredentialSent | api/internal/mcp/client.go:345-352 | for a header in such a spelling that nothing later sets there is a walk that sends the shared credential instead |
| OutboundHeaders.BlockedInAnySpelling | api/internal/security/ssrf.go:15-32 | a header is blocked in every spelling or in none |
| OutboundLaws.BlockedMeans | api/internal/security/ssrf.go:15-32 | the blocked headers are six names and four families, in any case |
| OutboundLaws.ClientHeadersMean | api/internal/mcp/registry.go:211-229 | a client has the configured headers and, on a bearer server with a token and no key rules, that token: as a Bearer value on Authorization, verbatim on any other header name; a header configured under exactly that name wins |
| OutboundLaws.WireNameMeans | api/internal/mcp/client.go:345-355 | on the wire a name that is a token has capitals first and after hyphens and small letters elsewhere; any other name is as given |
| OutboundAuth.ResolveAPIKey | api/internal/mcp/outbound_auth.go:22-38 | the two loops find the key of the resolution below |
| OutboundAuth.KeyPrecedence | api/internal/mcp/outbound_auth.go:19-38 | the key is that of the first rule of the user, else of the first rule of any of the user's groups, else the shared token |
| OutboundLaws.RuleMeans | api/internal/mcp/outbound_auth.go:22-38 | a user rule is for the same e-mail, never an empty one, a group rule for any of the groups, in any case |
| OutboundAuth.ResolveExtraHeaders | api/internal/handlers/mcp.go:119-156 | the caller's credential on this server with the identity over it, nil without one, or a demand for consent |
| OutboundAuth.ResolvedValueSentWhen | api/internal/handlers/mcp.go:119-156 | told from row and caller: a configured header goes out as configured exactly when the identity gives it that value, or the caller's credential on that header is that value, or neither has it and the row alone decides for it |
| OutboundAuth.FallbackReplacesConfigured | api/internal/handlers/mcp.go:131-137 | on every server with key rules every web caller without a rule sends the shared token in every walk, whatever is configured |
| OutboundAuth.RenewedHeaderIsReplaced | api/internal/handlers/mcp.go:131-137 | a concrete row with a renewed Authorization and an old token, and a caller whose every request sends the old token |
| OutboundAuth.ResolveForChat | api/internal/handlers/mcp.go:574-608 | the loop over the servers of a chat keeps the first resolved headers and stops where consent is needed |
| OutboundAuth.ChatValueSentWhen | api/internal/mcp/chat.go:191-204 | in a chat over several servers a header configured on any of them goes out as configured exactly when the identity gives it that value, or the first resolving server's credential on that header is that value, or neither has it and that row alone decides |
| OutboundAuth.ResolveForToolCall | api/internal/mcpserver/handler.go:755-778 | over MCP: the forwarded header or the caller's token with the identity over it, nil otherwise, or a refusal until the server is connected |
| OutboundAuth.SurfacesResolveAlikeWhen | api/internal/mcpserver/handler.go:755-778 | web and MCP resolve the same headers exactly when the server forwards, has no key rules, or the caller's key is empty |
| OutboundLaws.ResolutionMeans | api/internal/handlers/mcp.go:119-156 | by kind of server, on both surfaces: the forwarded header, the caller's key on its header, the caller's OAuth2 token or a demand for consent, with the identity over it, and nothing at all without a credential |
| OutboundLaws.ChatConsentWhen | api/internal/handlers/mcp.go:574-608 | a chat over several servers demands consent exactly when one of its OAuth2 servers has no token and does not forward |
| OutboundAuth.McpValueSentWhen | api/internal/mcpserver/handler.go:755-778 | what a tool call over MCP sends for a configured header, as an iff on identity, credential and row; on a server with key rules no key is sent and the row alone decides |
| Registry.Registry.LoadFromDB | api/internal/mcp/registry.go:129-182 | after a successful listing the keys and configurations are its rows; an unchanged endpoint keeps its object, status, tools and client, any other row gets a new one with the row's headers; a failed listing changes nothing |
| RegistryLaws.KeptWhenSameEndpoint | api/internal/mcp/registry.go:148-170 | a refresh keeps a server's object exactly when it was registered with the same URL and transport; a new one's client has the row's headers |
| Registry.EditKeepsHeaders | api/internal/mcp/registry.go:148-155 | a listing that edits a row but not its endpoint shows the new row on a client with the old row's headers |
| Registry.Registry.InitializeServer | api/internal/mcp/registry.go:231-275 | connected with the listed tools after handshake and listing succeed, else in error with the tools kept |
| Registry.Registry.EnsureInitialized | api/internal/mcp/registry.go:278-319 | success promises an initialized client and leaves an initialized one alone |
| Registry.Registry.Reconnect | api/internal/mcp/registry.go:322-364 | a failed reconnection forgets the tools, and no other server moves |
| Registry.Driver.Run | api/internal/mcp/registry.go:129-364 | after any sequence of refreshes, background starts, first requests and reconnections the registry is valid for the last successful listing |
| ToolNames.PairRoundTrip | api/internal/mcpserver/server.go:411-421 | a server and tool pair is read back exactly when the server ID has no double underscore and does not end in one |
| ToolNames.HandleToolsCall | api/internal/mcpserver/handler.go:418-457 | the dispatcher reaches a tool exactly when that tool is well formed and advertised under the name |
| ToolNames.RoutesBack | api/internal/mcpserver/handler.go:418-457 | each of the six name forms reaches its own handler with its own identifiers exactly when those are well formed |
| ToolNames.NamesAreUnique | api/internal/mcpserver/server.go:59-69 | no two well-formed tools share a name |
| ToolNames.NamesMean | api/internal/mcpserver/server.go:59-70 | the names of the six kinds of tools, and which server and agent IDs are well formed |
| ToolNames.IdMeans | api/internal/models/group_id.go:10 | a group or skill ID that can be a name has 1 to 56 letters, digits, underscores or hyphens and starts with a letter or digit |
| ToolNames.RoutedNamesAreAdvertised | api/internal/mcpserver/handler.go:418-457 | a name that reaches a handler is the name that handler's tool is advertised under |
| ToolNames.ListTools | api/internal/mcpserver/server.go:150-210 | the advertised list, in order, without groups whose ID cannot be a tool name |
| ToolNames.AdvertisedMean | api/internal/mcpserver/server.go:150-210 | what is advertised: every agent, server tool, skill and operation, each group whose ID can be a name, and last the listing itself |
| ToolNames.EveryAdvertisedToolRoutes | api/internal/mcpserver/server.go:150-210 | with clean server IDs, valid skill IDs and non-empty agent IDs every advertised name reaches its own tool |
| ToolNames.ToolMap.Build | api/internal/mcp/chat.go:159-171 | exactly the listed prefixed names are mapped, each to the last server that listed it |
| ToolNames.ChatRoutesExactly | api/internal/mcp/chat.go:159-200 | with distinct clean IDs each call goes to the server that listed the tool, under the name it listed |
| ToolNames.SentNameWhen | api/internal/mcp/chat.go:183-203 | the name sent is the name listed exactly when the server ID is clean |
| GeminiSchema.SanitizeSchema | api/internal/llm/google.go:182-217 | the recursive loops terminate and compute the rewriting |
| GeminiSchema.SanitizeOptional | api/internal/llm/google.go:183-185 | a nil schema stays nil and any other is rewritten |
| GeminiSchema.NodesStay | api/internal/llm/google.go:194-213 | every schema node reached through properties and items stays in place and is itself rewritten |
| GeminiSchema.NodeFields | api/internal/llm/google.go:187-215 | at each node forbidden keywords are gone, every property name is kept whatever its spelling, and other fields are as before |
| GeminiSchema.ResultAccepted | api/internal/llm/google.go:190-192 | no forbidden keyword is left on any schema node |
| GeminiSchema.DroppedKeywords | api/internal/llm/google.go:187-192 | exactly five keywords are dropped, whatever they hold |
| GeminiSchema.UnchangedWhen | api/internal/llm/google.go:182-217 | a schema is left alone exactly when no node carries a forbidden keyword, so rewriting is idempotent |
| Resolver.LlmResolver.ResolveRole | api/internal/llmresolver/resolver.go:38-68 | one resolution: the cached pair on an equal key, else a build that replaces the role's entry only when it succeeds |
| Resolver.LlmResolver.ResolveAll | api/internal/llmresolver/resolver.go:38-68 | any sequence of calls on one resolver leaves the cache, and answers, as the histories below |
| Resolver.KeyIsExact | api/internal/llmresolver/resolver.go:50 | without NUL characters keys are equal exactly when the six fields are |
| Resolver.NulBreaksKey | api/internal/llmresolver/resolver.go:50 | two different models share a key once a field may hold NUL |
| Resolver.AgreesWithRebuilding | api/internal/llmresolver/resolver.go:38-68 | after any history a success matches the role's current first model on the keyed fields and rebuilds exactly when one changed since the role's last success |
| Resolver.TokenLimitIsStale | api/internal/llmresolver/resolver.go:50-56 | an edit of the token limit alone is not seen |
| Resolver.ResolutionMeans | api/internal/llmresolver/resolver.go:38-68 | one resolution case by case: read error, no model, kept pair, failed build, and a traced or untraced new pair |
| Headers.JoinGroups | api/internal/identity/headers.go:73-93 | the value is the comma join of the longest prefix of the usable groups that fits 4096 bytes |
| Headers.PrefixIsUnique | api/internal/identity/headers.go:73-93 | that prefix is unique and no longer one fits, so no group is cut |
| Headers.SanitizeExact | api/internal/identity/headers.go:97-105 | sanitizing leaves no control character or surrounding space and leaves alone exactly the values without them |
| Headers.SanitizeMeans | api/internal/identity/headers.go:97-105 | by position: a sanitized value is the original without control characters and without the white space before and after the rest, and nothing else is missing |
| Headers.UsableMeans | api/internal/identity/headers.go:73-79 | the groups that count are the sanitized ones, in order, but for empty ones |
| Headers.HeaderIsPlain | api/internal/identity/headers.go:73-105 | the header has no control character and is the same for groups sanitized beforehand |
| Headers.ReadBackWhen | api/internal/identity/headers.go:70-93 | splitting the header at commas gives the groups back exactly when none contains a comma |
| Moderator.StopsOnlyWhenResolved | api/internal/orchestrator/orchestrator.go:269-291 | corollary: a clean stop right after a reply that could not access or verify means every agent has spoken |
| Registry.WhatIsShown | api/internal/mcp/registry.go:129-182 | corollary: validity means: keys are the listed IDs, each configuration is its row, each client has its endpoint, connected implies initialized and showing the latest listing |
| Resolver.FailureKeepsCache | api/internal/llmresolver/resolver.go:57-60 | corollary: a failed call leaves the whole cache, and any call leaves other roles' entries |
| RunLogFlag.SerialMeansSaved | api/internal/handlers/proxy.go:459-463 | corollary: while the runs of a session do not overlap, an answered give-up always means saved and no stream is deleted in the middle of a run |

## Left out

- RunLogFlag.InactiveMeansSaved: leaves out crashes and the ten-minute expiry of the flag and the stream; the source itself relies on that expiry to end a crashed run.
- RunLogGaps.GapFreeWhen: approximate trimming is taken to remove any prefix that leaves 5000 events; a store that trims in whole blocks starts later.
- RunLog.ReplayLoop: stream IDs are positions that keep growing when a stream is deleted and created again, which assumes that the server clock advances between the two: within one millisecond, or on a clock that goes back, IDs would start again.
- RunLogFlag.FlagNamesLastSetter: assumes distinct run tokens, although the request ID can come from a client header; InactiveMeansSaved and KeepsPromiseWhen do not.
- OutboundHeaders.ConfiguredValueSentWhen: letters are folded as ASCII; names that are no tokens are refused later by the HTTP library. Content and session headers set before are the arbitrary start of a request.
- OutboundAuth.ResolveExtraHeaders: the identity headers are any map here (Headers gives their values), and the OAuth2 token store is an input.
- Conversation.KeptWhen: the log is the list that selections are made from, in memory during a debate and stored otherwise; merging the audiences of a repeated user message, which only takes that message from what an agent missed, is left out.
- Context.PrepareMessages: strings are sequences of Unicode characters, so invalid UTF-8 is not part of this model; the summarizer is an input.
- Registry.Registry.LoadFromDB: takes the rows of a listing to have distinct IDs, as the table's primary key makes them; steps on the registry are taken one at a time.
- Registry.WhatIsShown: claims endpoints only, since a reused client keeps the headers it was built with.
- RateLimit.RateBound: takes one request as atomic and tokens as real numbers; RateLimitRace gives the bound without atomicity.
- Resolver.AgreesWithRebuilding: takes the hash to be free of collisions and fields to be free of NUL, which PostgreSQL text is; the token limit and display fields are not keyed.
- Moderator.Debate: the transcript handed to the model and the substring test for a handoff are opaque functions.
- Debate.GroupChat: moderator texts are kept to their gist; tracing, metrics and audit records are left out.
- Debate.CallGroup: sections are a datatype, not the rendered markdown.
- Turn.Session.RunWebTurn: message preparation, attachments and the proxied call are inputs; the model keeps what the turn saves, streams, maps and returns.
- GroupSession.Backend.McpOpen: the asynchronous variant of the cleanup is taken to run right away; session names are left out.
- ToolLoop.RunLoop: fresh UUIDs are a counter; a failed write to the client is ignored, as in the source.
- GeminiSchema.SanitizeSchema: schemas inside arrays or other keywords are not schema nodes, as in the source.
- Rosters and permission filters, request validation, OAuth, cookies, Slack linking, admin handlers, file attachments, summaries and session naming: plumbing or simple filters.
- The agents' own protocols behind the proxy, JSON and SSE byte formats, Redis and PostgreSQL themselves: arbitrary inputs and faults here.
