# Verified models of the Mustang CLI, daemon and supervisor

This project models the parts of the system that are algorithms or protocols rather than plumbing, and
proves what they promise. Each source component has its own Dafny module. Code that changes state in
place is a class or a method with loops, proved against a specification function; the lemmas then
speak about that function over all inputs, all runs or all reachable states.

| Module | Component |
|---|---|
| `ThinkTagParser` | the streaming splitter for think tags, independent of how the text is cut |
| `AnsiWrap` | the line wrapper that re-opens SGR styles (section 8.3.117 of ECMA-48) on every chunk |
| `SessionAdapter` | the live and the replay path from an update stream to messages and segments |
| `ConcurrencyPlanner` | the greedy partition of tool calls into parallel groups |
| `AcpClient` | the request table, reconnect loop and socket replacement as interleaved steps; responses are matched by id as in section 5 of JSON-RPC 2.0 |
| `Transcript`, `Rebuild`, `Conversation` | the linked log read back after damage, its replay under the three policies for cancelled tools, and orphan stripping |
| `Compaction`, `MicroCompaction`, `Compactor`, `CompactorPairing` | the three layers of compaction, the cascade, its circuit breaker and what it does to call and result pairs |
| `TextLines`, `ConfigItems`, `ConfigText`, `ConfigSave`, `ConfigResave`, `ConfigFormat`, `ConfigDamage` | a configuration text as lines: parser, section editor, save and parse, saving again, for any way of reading a line |
| `ClientConfig`, `ClientFile`, `JsonText`, `OobeState` | the client's way of reading a line, character by character, and its configuration file |
| `Supervisor`, `RestartBudget` | dependency-ordered restarts under a sliding-window budget |
| `ConfigMerge`, `MemoryExtractor` | the layered merge and the coalescing extractor |
| `Wrappers`, `Decimal` | results and options, decimal numbers |

## Where the code differs from its description

- The comment at `rebuild.py:97-99` speaks of ids whose only result is synthetic; the code collects
  every synthetic id. `Rebuild.HideCanOrphanAResult` shows a chain on which a real result is left
  without its call, and `Rebuild.HidingLeavesNoTraceIff` and `Rebuild.EveryAnswerWasCalledIff` say
  exactly when that cannot happen.
- Micro-compaction removes a call below the protected tail while its results may lie inside it.
  `MicroCompaction.PairingPreservedIff` gives the exact condition, `CompactorPairing.SearchStraddles` a
  history. Summarising cuts the same way; `CompactorPairing.CascadePairedIff` is exact for the whole cascade.
- When the token count was only estimated and snipping freed nothing, layer 2 subtracts from a tracked
  count of zero and ends the cascade at once; `Compactor.StopAfterLayerTwo` separates the two cases, and
  `CompactorPairing.EstimateStopsTooEarly` has a history.
- A `close()` during an in-flight reconnect can still end in "connected"; `AcpClient.CloseIsFinalIff`
  says exactly when it cannot, and `AcpClient.ClosingCanFail` has a run.
- Saving the same first-run state twice is not always a no-op: a kept line that ends in two carriage
  returns before its newline loses one with every save. `OobeState.SaveAgainIff` is exact.
- A date with a quote or a backslash is written with JSON escapes that the parser does not undo, and a
  date with a line separator (U+2028, U+2029) makes the file unreadable; `OobeState.StateReadsBackIff`
  is exact.
- The section editor and the parser disagree on lines inside the section that start with a tab or with
  a comment in column 0. A tab-led entry is a top-level key to the parser, and saving loses it; a field
  below a column-0 comment is kept without its header, so that saving makes the file unreadable or,
  behind another section, silently moves the field there. `ClientFile` has a text for each of the
  three. A comment alone does no harm: `ClientFile.EditsRightIff` says exactly which texts are edited
  right. On these every other key keeps its value; on no others, as `ClientFile.OthersUntouchedIff` says,
  unless a loss is hidden because a top-level key is written twice or another section already has a field
  of that name.
- The monitor passes over a dead child while the restart lock is held, so it may pick a later one;
  `Supervisor.PickedIsEarliestIff` says when it does not.
- Replaying a session equals the live run without any assumption on how subagent brackets nest.

## Model

| member | source | states |
|---|---|---|
| `ThinkTagParser.ChunkIndependence` | archive/daemon/daemon/providers/think_tag_parser.py:42-106 | for every text and every way of cutting it, feeding the chunks gives the labelled characters, the final mode and the held buffer of the one-shot splitter on the whole text |
| `ThinkTagParser.CutsAgree` | archive/daemon/daemon/providers/think_tag_parser.py:42-87 | two cuttings of the same text cannot be told apart |
| `ThinkTagParser.HeldIsPartialTag` | archive/daemon/daemon/providers/think_tag_parser.py:42-106 | what is held back is always a proper prefix of the tag awaited in the current mode |
| `ThinkTagParser.ScanResumes` | archive/daemon/daemon/providers/think_tag_parser.py:42-87 | stopping anywhere and going on from the held buffer changes nothing |
| `ThinkTagParser.Lossless` | archive/daemon/daemon/providers/think_tag_parser.py:42-87 | the input is the emitted pieces separated by alternating tags, followed by the held buffer: nothing but tags is lost |
| `ThinkTagParser.RoundTrip` | archive/daemon/daemon/providers/think_tag_parser.py:42-87 | pieces rendered with alternating tags are read back as those pieces |
| `ThinkTagParser.ThinkTagParser.Feed` | archive/daemon/daemon/providers/think_tag_parser.py:42-87 | one call emits, holds back and switches exactly as the one-shot splitter does on the held buffer followed by the chunk; no event is empty; the held buffer stays a proper prefix of the awaited tag |
| `ThinkTagParser.ThinkTagParser.FeedAll` | archive/daemon/daemon/providers/think_tag_parser.py:42-87 | feeding a list of chunks through the parser ends in the outcome that chunk independence speaks about |
| `ThinkTagParser.NextCut` | archive/daemon/daemon/providers/think_tag_parser.py:55-85 | one turn of the loop either consumes a tag and shortens the text or leaves only a partial tag, and agrees with the reference splitter |
| `ThinkTagParser.SplitAtPartial` | archive/daemon/daemon/providers/think_tag_parser.py:90-106 | splits off the longest suffix that is a proper prefix of the tag |
| `AnsiWrap.WrapAnsiLine` | src/cli/src/compat/natives.ts:73-105 | drawn chunk by chunk from the default style, the chunks show exactly the (grapheme, style) sequence of the line; every chunk but the last ends in the default style; a chunk wider than the width holds exactly one positive-width grapheme; every break was forced |
| `AnsiWrap.WrapTextWithAnsi` | src/cli/src/compat/natives.ts:56-59 | the chunks are one group a line, and every group shows exactly what its line shows, keeps within the width of at least one column and breaks only where it must |
| `AnsiWrap.PrefixRoundTrip` | src/cli/src/compat/natives.ts:111-208 | printing a reachable style and re-parsing it from the default style gives exactly that style and shows nothing |
| `AnsiWrap.PrefixEmpty` | src/cli/src/compat/natives.ts:107-120 | the printed prefix is empty for the default style only, so a chunk is left open exactly when there is nothing to reset |
| `AnsiWrap.ApplyCodesReachable` | src/cli/src/compat/natives.ts:122-208 | every style that parsing any codes can reach is one that can be printed |
| `AnsiWrap.LastSettingWins` | src/cli/src/compat/natives.ts:122-186 | of two settings of one attribute the last wins, from every style: on-codes before their off-codes, and colours before colours of the same ground, leave no trace |
| `AnsiWrap.SettingsCommute` | src/cli/src/compat/natives.ts:122-186 | settings of different attributes can be exchanged |
| `AnsiWrap.OffFromDefaultIff` | src/cli/src/compat/natives.ts:122-186 | from the default style a setting changes nothing if and only if it is an off-code |
| `AnsiWrap.SettingsDiffer` | src/cli/src/compat/natives.ts:122-186 | two settings that turn something on give the same style if and only if they are the same |
| `AnsiWrap.ResetForgets` | src/cli/src/compat/natives.ts:130-137 | after code 0 everything shows as from the default style |
| `AnsiWrap.UntrackedCode` | src/cli/src/compat/natives.ts:178-184 | a code that is not tracked changes nothing |
| `AnsiWrap.OneByOne` | src/cli/src/compat/natives.ts:122-186 | a sequence of many codes is as many sequences of one setting each, in order |
| `AnsiWrap.BadColorIsPassedOver` | src/cli/src/compat/natives.ts:188-208 | a colour introducer that no complete extended colour follows is passed over |
| `AnsiWrap.Closed` | src/cli/src/compat/natives.ts:107-109 | closing a chunk ends in the default style and changes neither what it shows nor its measures |
| `AnsiWrap.JoinedMeaning` | src/cli/src/compat/natives.ts:73-109 | on one terminal that carries its state from chunk to chunk the chunks still show the same items in the same styles |
| `AnsiWrap.SgrState.Update` | src/cli/src/compat/natives.ts:122-186 | the in-place loop over the codes of one sequence ends in the state the reference interpreter gives |
| `SessionAdapter.ReplayEqualsLiveIff` | src/cli/src/session/agent-session-adapter.ts:608-725 | replaying the recorded stream of any multi-turn history rebuilds the roles and contents of the live prompts if and only if every turn has a user text and at least one visible message, thought or tool call; subagent brackets need not nest and prompts may fail |
| `SessionAdapter.LiveSeesErased` | src/cli/src/session/agent-session-adapter.ts:685-725 | the live path on any stream equals the live path on the stream with bracketed private updates erased |
| `SessionAdapter.ReplaySeesErased` | src/cli/src/session/agent-session-adapter.ts:616-675 | the replay of any stream equals the replay of the stream with bracketed private updates erased |
| `SessionAdapter.LiveTurns` | src/cli/src/session/agent-session-adapter.ts:128-183 | after any number of prompts nothing is active and the messages are, per turn, the user text and one message that tells, letter by letter and call by call, what was said outside subagents, in blocks of which no two neighbours are texts of one kind, with the reason the turn stopped |
| `SessionAdapter.ReplayedTurns` | src/cli/src/session/agent-session-adapter.ts:608-675 | the replay yields, per turn, the user text if it is not empty and, if a message, thought or tool call came outside subagents, one message that tells exactly what was said there |
| `SessionAdapter.RenderTells` | src/cli/src/session/agent-session-adapter.ts:753-774 | what the visible updates amount to shows each letter and call said outside subagents once, in order, in compact blocks |
| `SessionAdapter.AppendShows` | src/cli/src/session/agent-session-adapter.ts:1077-1087 | appending a chunk shows its letters behind what was shown and keeps the blocks compact |
| `SessionAdapter.CompactIsUnique` | src/cli/src/session/agent-session-adapter.ts:1077-1087 | there is only one compact list of blocks that shows given letters and calls, so what was said determines a message |
| `SessionAdapter.DepthIsUnclosed` | src/cli/src/session/agent-session-adapter.ts:713-725 | the depth of a stream is the greatest number of subagent starts not made up for by ends, counted from any point of it |
| `SessionAdapter.LoadRecounts` | src/cli/src/session/agent-session-adapter.ts:504-534 | a loaded session gives that account of its turns, each message stopped |
| `SessionAdapter.ReplayByTurns` | src/cli/src/session/agent-session-adapter.ts:504-534 | replaying the one flat stream is replaying turn by turn |
| `SessionAdapter.LoadEqualsLiveIff` | src/cli/src/session/agent-session-adapter.ts:504-534 | the same equality for loading into an adapter that has already shown other things |
| `SessionAdapter.LiveSegments` | src/cli/src/session/agent-session-adapter.ts:753-774 | at every moment of a live prompt the active message is its finished segments with the tool calls between them, then the open segment |
| `SessionAdapter.ReplaySegments` | src/cli/src/session/agent-session-adapter.ts:616-675 | the same invariant at every moment of a replay of any stream |
| `SessionAdapter.PromptsAreFollowed` | src/cli/src/session/agent-session-adapter.ts:128-183 | at every moment of any number of prompts a listener knows, from the events alone, the open segment, whether a prompt runs, the tools' names and the user's texts, and has heard nothing out of place |
| `SessionAdapter.ReplayIsFollowed` | src/cli/src/session/agent-session-adapter.ts:616-675 | the same at every moment of a replay, whatever was emitted before it |
| `SessionAdapter.LiveReports` | src/cli/src/session/agent-session-adapter.ts:777-789 | every progress of a tool outside subagents is reported, in order, and no other |
| `SessionAdapter.ReplayReports` | src/cli/src/session/agent-session-adapter.ts:777-789 | the same for a replay |
| `SessionAdapter.AgentSessionAdapter.HandleUpdate` | src/cli/src/session/agent-session-adapter.ts:685-711 | the in-place handler performs exactly the live step, events included |
| `SessionAdapter.AgentSessionAdapter.HandleReplayUpdate` | src/cli/src/session/agent-session-adapter.ts:616-649 | the in-place handler performs exactly the replay step, events included |
| `SessionAdapter.AgentSessionAdapter.HandleSubagent` | src/cli/src/session/agent-session-adapter.ts:713-725 | tracks the bracket depth and tells whether the update is a boundary or private to a subagent |
| `SessionAdapter.AgentSessionAdapter.AppendAssistant` | src/cli/src/session/agent-session-adapter.ts:753-759 | appends to message and open segment alike, merging with a last block of the same kind only |
| `SessionAdapter.AgentSessionAdapter.StartToolCall` | src/cli/src/session/agent-session-adapter.ts:761-774 | ends the open segment and puts the call behind it |
| `SessionAdapter.AgentSessionAdapter.PromptFor` | src/cli/src/session/agent-session-adapter.ts:128-170 | one prompt, stopped or failed, performs exactly the prompt step that the turn lemmas speak about |
| `SessionAdapter.AgentSessionAdapter.LoadStream` | src/cli/src/session/agent-session-adapter.ts:504-534 | loading resets, replays the whole stream and finishes the last assistant |
| `ConcurrencyPlanner.PlanExecutionGroups` | archive/daemon/daemon/engine/orchestrator/concurrency.py:73-127 | the groups are legal, concatenate to the input, and no order-preserving contiguous partition into legal groups uses fewer |
| `ConcurrencyPlanner.MaximalIsOptimal` | archive/daemon/daemon/engine/orchestrator/concurrency.py:73-127 | a partition in which no group could have taken the next call is never longer than any other |
| `ConcurrencyPlanner.FirstIsLongest` | archive/daemon/daemon/engine/orchestrator/concurrency.py:73-127 | no other plan has a longer first group |
| `ConcurrencyPlanner.GroupsAreSafe` | archive/daemon/daemon/engine/orchestrator/concurrency.py:45-67 | two calls in one group are both pre-approved and not SERIAL, and two KEYED ones have different keys |
| `ConcurrencyPlanner.LegalIff` | archive/daemon/daemon/engine/orchestrator/concurrency.py:51-60 | a group of two or more is legal if and only if all its calls are approved and none is serial, every keyed call behind the first has a key, and no two keyed calls share one |
| `ConcurrencyPlanner.Place` | archive/daemon/daemon/engine/orchestrator/concurrency.py:106-121 | placing one call keeps the finished groups legal and maximal and the open one a legal accumulator |
| `ConcurrencyPlanner.GroupBuilder.CanAccept` | archive/daemon/daemon/engine/orchestrator/concurrency.py:51-60 | a call is accepted exactly when the group stays legal and open with it |
| `ConcurrencyPlanner.GroupBuilder.Add` | archive/daemon/daemon/engine/orchestrator/concurrency.py:62-67 | adding keeps the recorded keys equal to the keys of the KEYED calls |
| `AcpClient.EveryRun` | src/cli/src/acp/client.ts:104-158 | over every interleaving of requests, responses, timeouts, socket events and loop steps from connect: every id is pending or settled exactly once, nothing is pending while disconnected, at most one reconnect loop is unfinished, initialize is the first frame of every socket and of no other place, and the frames carry exactly the ids handed out and sent, each once and in order |
| `AcpClient.StepRequests` | src/cli/src/acp/client.ts:307-368 | every step keeps the request table sound: no id reused, none lost, timers only for pending requests |
| `AcpClient.StepLoops` | src/cli/src/acp/client.ts:508-542 | every step keeps at most one unfinished loop, the one recorded as reconnecting |
| `AcpClient.StepSockets` | src/cli/src/acp/client.ts:129-158 | every step keeps initialize the first frame of every socket |
| `AcpClient.StepWire` | src/cli/src/acp/client.ts:320-368 | every step keeps that each id handed out, unless it could not be sent, stands in exactly one request frame on one socket, that no frame carries another, and that ids increase along and across sockets |
| `AcpClient.PendingIsOnTheWire` | src/cli/src/acp/client.ts:320-368 | a request that waits for its answer has gone out in exactly one frame |
| `AcpClient.SettledByIff` | src/cli/src/acp/client.ts:252-330 | a waiting request is settled if and only if its response comes on the current socket, its own timer fires or the connection ends, and it is told which |
| `AcpClient.TimersRun` | src/cli/src/acp/client.ts:320-368 | a request has a running timer exactly as long as it waits, if it was made with one |
| `AcpClient.EveryRunShows` | src/cli/src/acp/client.ts:508-560 | over every run: while not closed, the client is shown as connecting as long as a loop is at work, as connecting only then or when the connection is lost, and as disconnected only after a loop has used up its attempts |
| `AcpClient.TwentyFailures` | src/cli/src/acp/client.ts:518-542 | a loop whose socket never opens makes exactly twenty attempts, sleeps 35,750 ms and ends as disconnected |
| `AcpClient.LoopsHaveCauses` | src/cli/src/acp/client.ts:499-560 | over every run there are no more reconnect loops than sockets lost and callers asking |
| `AcpClient.SocketFate` | src/cli/src/acp/client.ts:129-160 | a socket never opens again, and gets a frame exactly for each request and notification made while it is the current one of a connected client |
| `AcpClient.CanComeBack` | src/cli/src/acp/client.ts:499-542 | a client that lost its connection, is not closed and has no loop running can be brought back by asking for the connection |
| `AcpClient.LoopBounds` | src/cli/src/acp/client.ts:518-542 | two unfinished loops are one loop; a loop makes at most 20 attempts and sleeps at most 35,750 ms in total |
| `AcpClient.SupersededForever` | src/cli/src/acp/client.ts:133-157 | once a socket is superseded, no message, close or error from it changes anything in any continuation |
| `AcpClient.StrayResponse` | src/cli/src/acp/client.ts:252-264 | a response that is late, repeated, made up or from a superseded socket leaves no trace: every run goes on as if it had never come |
| `AcpClient.SettledOnce` | src/cli/src/acp/client.ts:320-368 | a request settled at some point of a run has been settled exactly once at every later point |
| `AcpClient.NeverTwice` | src/cli/src/acp/client.ts:560-565 | no id is ever settled twice, by whatever mix of responses, timeouts, failed sends, disconnects and close |
| `AcpClient.CloseIsFinalIff` | src/cli/src/acp/client.ts:221-231 | closing is final if and only if no reconnect loop is opening a socket or waiting on an answered initialize at that moment |
| `AcpClient.ClosingCanFail` | src/cli/src/acp/client.ts:221-231 | a run of two events after which closing is not final |
| `AcpClient.AcpClient.SendRequest` | src/cli/src/acp/client.ts:320-368 | registering, sending and taking back after a failed send end in the state the request step gives |
| `AcpClient.AcpClient.RejectAllPending` | src/cli/src/acp/client.ts:560-565 | the loop settles every pending request as lost, exactly once, and stops its timer |
| `AcpClient.AcpClient.HandleResponse` | src/cli/src/acp/client.ts:252-264 | routes by id, on the current socket only |
| `AcpClient.AcpClient.Disconnect` | src/cli/src/acp/client.ts:544-552 | marks disconnected once, rejects what is pending and starts the reconnect loop |
| `AcpClient.AcpClient.ReconnectOnce` | src/cli/src/acp/client.ts:508-516 | starts a loop only if none is recorded |
| `AcpClient.AcpClient.TakeOver` | src/cli/src/acp/client.ts:129-158 | a new socket takes over with initialize as its first frame |
| `AcpClient.AcpClient.Close` | src/cli/src/acp/client.ts:221-231 | closing rejects what is pending and closes the current socket |
| `Rebuild.EveryCallIsAnswered` | archive/daemon/daemon/sessions/rebuild.py:97-172 | for every chain and policy, the rebuilt conversation calls exactly the requested, unhidden and answered ids, and every call has its result |
| `Rebuild.EveryAnswerWasCalledIff` | archive/daemon/daemon/sessions/rebuild.py:97-172 | every result has its call if and only if every replayed tool entry was requested and not hidden |
| `Rebuild.HidingLeavesNoTraceIff` | archive/daemon/daemon/sessions/rebuild.py:97-104 | hiding leaves no trace of a cancelled id if and only if no real result carries that id too |
| `Rebuild.WellFormedChainsAreLegal` | archive/daemon/daemon/sessions/rebuild.py:97-172 | with at most one tool entry per id, each requested, calls and results match both ways under every policy |
| `Rebuild.HideCanOrphanAResult` | archive/daemon/daemon/sessions/rebuild.py:97-104 | a chain on which hiding leaves a real result without its call, contrary to the documentation |
| `Rebuild.RebuiltOrder` | archive/daemon/daemon/sessions/rebuild.py:106-172 | if tool entries come after the entries that request them, results come after their calls |
| `Rebuild.RebuiltHasNoEmptyMessage` | archive/daemon/daemon/sessions/rebuild.py:97-172 | no message of a rebuilt conversation is empty |
| `Rebuild.RebuiltTellsAll` | archive/daemon/daemon/sessions/rebuild.py:97-172 | for every chain and policy the rebuilt conversation says, role by role and in order, all the texts, summaries and unhidden results of the chain and its unhidden answered calls, and nothing else |
| `Rebuild.RebuildConversation` | archive/daemon/daemon/sessions/rebuild.py:71-172 | the loops over the chain and the final stripping build exactly the conversation these lemmas speak about |
| `Rebuild.CollectHidden` | archive/daemon/daemon/sessions/rebuild.py:97-104 | collects the ids of all synthetic entries under the hiding policy, and none otherwise |
| `Rebuild.DecodeBlocks` | archive/daemon/daemon/sessions/rebuild.py:112-133 | decodes the blocks of an assistant entry without the hidden calls |
| `Conversation.StripIsExact` | archive/daemon/daemon/engine/conversation.py:189-230 | stripping removes exactly the unanswered calls, keeps every other block in its role and order, and loses as many blocks as there are orphans |
| `Conversation.StripKeepsResults` | archive/daemon/daemon/engine/conversation.py:213-230 | the second pass loses no result |
| `Conversation.StripLeavesAnsweredCalls` | archive/daemon/daemon/engine/conversation.py:189-230 | the calls left are exactly the answered ones |
| `Conversation.StripIsIdempotent` | archive/daemon/daemon/engine/conversation.py:168-230 | after stripping every call is answered; a second call finds nothing and changes nothing |
| `Conversation.Conversation.StripOrphanedToolCalls` | archive/daemon/daemon/engine/conversation.py:189-230 | the in-place two-pass removal ends in the stripped list and returns the number of calls removed |
| `Conversation.Conversation.AllUnresolvedToolCalls` | archive/daemon/daemon/engine/conversation.py:138-166 | lists every call without a result anywhere in the history, in order |
| `Conversation.StripCalls` | archive/daemon/daemon/engine/conversation.py:201-211 | removing an emptied message by equality gives the same list as removing it by position |
| `Conversation.StripResults` | archive/daemon/daemon/engine/conversation.py:213-228 | drops a tool message only if it is empty |
| `Transcript.DamagedLogRecovery` | archive/daemon/daemon/sessions/storage.py:226-267 | after loss of any set of whole lines of a written log, reading back yields exactly the maximal contiguous run of survivors ending at the last survivor |
| `Transcript.UndamagedLog` | archive/daemon/daemon/sessions/storage.py:226-267 | an undamaged log is read back whole |
| `Transcript.ChainOfAnything` | archive/daemon/daemon/sessions/storage.py:226-267 | whatever the file holds, cycles included, reading back terminates with distinct ids, each entry the parent of the next, ending in the last entry and maximal upwards |
| `Transcript.ReadChain` | archive/daemon/daemon/sessions/storage.py:226-267 | the walk along the parent links with its set of seen ids computes that chain, and an oversized file is an error |
| `Transcript.ReadAll` | archive/daemon/daemon/sessions/storage.py:192-224 | skips blank and unreadable lines, keeps all others in order, and refuses an oversized file |
| `Transcript.TranscriptWriter.Append` | archive/daemon/daemon/sessions/storage.py:120-153 | appends one line linked to the last id and leaves all earlier lines as they were |
| `Transcript.TranscriptWriter.Resume` | archive/daemon/daemon/sessions/manager.py:177-186 | reading the chain back points the writer at its last entry |
| `Transcript.AppendKeepsWritten` | archive/daemon/daemon/sessions/storage.py:120-153 | appending a fresh id to a written log leaves a written log |
| `Transcript.AppendsAreWritten` | archive/daemon/daemon/sessions/storage.py:120-153 | any run of appends with distinct non-empty ids to an empty file leaves a written log |
| `Transcript.AppendsAreRecovered` | archive/daemon/daemon/sessions/storage.py:120-267 | after any run of such appends and the loss of any set of lines, reading back yields exactly the maximal run of survivors ending at the last survivor |
| `Transcript.AppendAll` | archive/daemon/daemon/sessions/storage.py:120-153 | the writer, called record by record, leaves the file that log stands for |
| `Transcript.EveryRunRecovers` | archive/daemon/daemon/sessions/storage.py:120-267 | over every sequence of appends, losses of lines and new sessions, reading back yields the last entry left and what its links lead to, up to the first line lost |
| `Transcript.RunHolds` | archive/daemon/daemon/sessions/storage.py:120-267 | the log of a run holds what was appended, ids and payloads, in order |
| `Transcript.KeptIff` | archive/daemon/daemon/sessions/storage.py:120-267 | a line is left if and only if it was never lost after it was written |
| `Transcript.WovenLogRecovery` | archive/daemon/daemon/sessions/storage.py:226-267 | the same for any log with distinct ids whose links lead back, whoever wrote it |
| `Transcript.ResumeAndAppend` | archive/daemon/daemon/sessions/manager.py:177-186 | whatever a damaged file holds, an entry appended after resuming extends the recovered chain and nothing else |
| `Compaction.SnipKeepsPairing` | archive/daemon/daemon/engine/compact.py:126-183 | snipping keeps every role, every call and result id, and the whole protected tail |
| `Compaction.SnipToolResults` | archive/daemon/daemon/engine/compact.py:126-183 | only old results of snippable tools change, and the reported number is exactly the characters saved |
| `Compaction.SnippedIff` | archive/daemon/daemon/engine/compact.py:126-183 | a block is changed if and only if it stands before the protected tail and is a result of more than 100 characters of a snippable tool; it keeps its id and error flag, loses its images, gets shorter and tells how long it was |
| `Compaction.BuildToolNameIndex` | archive/daemon/daemon/engine/compact.py:99-110 | the name of an id is that of the last call that carries it |
| `Compaction.NamesAreLast` | archive/daemon/daemon/engine/compact.py:99-110 | an id belongs to the tool that the last call under it, in the whole history, names |
| `MicroCompaction.MicroCompact` | archive/daemon/daemon/engine/compact.py:191-275 | the result is the input without the read-only rounds below the cutoff plus one marker pair at the first removed position; freed characters count each removed message once |
| `MicroCompaction.TailIsKept` | archive/daemon/daemon/engine/compact.py:191-275 | everything from the cutoff on is an unchanged suffix of the result |
| `MicroCompaction.PairingPreservedIff` | archive/daemon/daemon/engine/compact.py:191-275 | on complete rounds calls and results stay paired both ways if and only if no read-only round straddles the cutoff |
| `MicroCompaction.StraddlingBreaks` | archive/daemon/daemon/engine/compact.py:218-252 | a straddling round leaves a result whose call is gone |
| `Compactor.EveryRun` | archive/daemon/daemon/engine/orchestrator/orchestrator.py:338-413 | over every run of user texts, tool results, answers with token counts, strippings, clearings and automatic, reactive and forced compactions: failures stay within 0..3, and reaching 3 disables automatic compaction for good, even after a later success |
| `Compactor.BreakerIsExact` | archive/daemon/daemon/engine/orchestrator/compactor.py:130-150 | over every run of a new session the count is the number of automatic summaries that failed since one last succeeded, automatically or reactively, and automatic compaction is off if and only if that number has once been three |
| `Compactor.JudgeAll` | archive/daemon/daemon/engine/orchestrator/compactor.py:60-212 | every event of every run has such a verdict |
| `Compactor.SummaryIsShown` | archive/daemon/daemon/engine/orchestrator/compactor.py:152-261 | whichever way it is asked for, the summary replaces all but the last four messages exactly if there are more and the model answers with something: it stands with its suffix in one user message, acknowledged by one assistant message, and the count starts anew |
| `Compactor.EveryRunKeepsTail` | archive/daemon/daemon/engine/orchestrator/compactor.py:60-261 | over every run in which nothing is stripped or cleared, the last four messages are those of the conversation had it never been compacted: the history at the start followed by all that was said since |
| `Compactor.EveryStep` | archive/daemon/daemon/engine/orchestrator/compactor.py:60-261 | every event keeps the breaker; the tail is that of the history with what the event says; a disabled automatic compaction changes nothing at all; and after stripping no call is unanswered |
| `Compactor.AutoKeepsTail` | archive/daemon/daemon/engine/orchestrator/compactor.py:78-150 | whichever layers fire or fail, the last four messages stay |
| `Compactor.StopAfterLayerTwo` | archive/daemon/daemon/engine/orchestrator/compactor.py:78-128 | the cascade stops after layer 2 exactly when what is left of the count is below the threshold, if the count was reported or snipping freed something; otherwise it stops whenever the threshold is positive, however long the history |
| `CompactorPairing.EstimateStopsTooEarly` | archive/daemon/daemon/engine/orchestrator/compactor.py:78-128 | a history on which the cascade stops although what is left is still estimated above the threshold |
| `CompactorPairing.CascadePairedIff` | archive/daemon/daemon/engine/orchestrator/compactor.py:93-150 | on complete rounds the cascade leaves calls and results paired if and only if what it did last cuts through no round: layer 1 never does, layer 2 if a read-only round straddles the protected tail, a summary if any round does |
| `CompactorPairing.SummaryPairedIff` | archive/daemon/daemon/engine/orchestrator/compactor.py:224-261 | a summarised history of complete rounds is paired if and only if no round straddles the protected tail |
| `CompactorPairing.AutoKeepsPairing` | archive/daemon/daemon/engine/orchestrator/compactor.py:60-150 | an automatic compaction keeps the pairing, whichever layers fire, if no round straddles the protected tail |
| `CompactorPairing.SearchStraddles` | archive/daemon/daemon/engine/compact.py:218-252 | a search and its result at the edge of the protected tail: layer 2 removes the call and keeps the result |
| `Compactor.Compactor.CompactIfNeeded` | archive/daemon/daemon/engine/orchestrator/compactor.py:60-150 | the in-place cascade follows the cascade relation of the run lemmas |
| `Compactor.Compactor.ReactiveCompact` | archive/daemon/daemon/engine/orchestrator/compactor.py:152-183 | a success clears the failures but not the disabled flag; a failure changes neither |
| `Compactor.Compactor.ForceCompact` | archive/daemon/daemon/engine/orchestrator/compactor.py:185-212 | a forced compaction leaves the breaker alone |
| `Compactor.Compactor.Run` | archive/daemon/daemon/engine/orchestrator/compactor.py:224-261 | summarising replaces all but the tail, or fails and changes nothing unless only persisting failed |
| `Compactor.EstimateTokens` | archive/daemon/daemon/engine/compact_types.py:92-114 | the estimate is a third of the characters of all blocks |
| `Compactor.CharactersAddUp` | archive/daemon/daemon/engine/compact_types.py:92-114 | these add up over histories and blocks, a text counting its length and any other block its dump |
| `Supervisor.EveryRunIsOrdered` | src/kernel/kernel/supervisor/runtime.py:163-283 | over every interleaving of crashes, requested restarts and restarts that fail midway, each running child was started after the current instance of every child before it |
| `Supervisor.StepOk` | src/kernel/kernel/supervisor/runtime.py:245-283 | every single step keeps that order |
| `Supervisor.CompletedRestartHeals` | src/kernel/kernel/supervisor/runtime.py:245-283 | a restart from the earliest dead child that completes with no further crash leaves all three children running |
| `Supervisor.RestartReplacesFrom` | src/kernel/kernel/supervisor/runtime.py:245-283 | whatever crashes meanwhile, a restart leaves the children before the one it starts from the processes they were, and when it has completed all from that one on are new |
| `Supervisor.PickDeadChild` | src/kernel/kernel/supervisor/runtime.py:181-192 | the monitor picks the earliest child found dead while the restart lock was free, and none only if there was none |
| `Supervisor.PickedIsEarliestIff` | src/kernel/kernel/supervisor/runtime.py:181-192 | that is the earliest dead child if and only if no earlier one was passed over because of the lock |
| `Supervisor.SupervisorRuntime.HandleChildExit` | src/kernel/kernel/supervisor/runtime.py:225-239 | without a grant the runtime is degraded and no process is touched; with one the restart is counted |
| `Supervisor.SupervisorRuntime.RestartFromLocked` | src/kernel/kernel/supervisor/runtime.py:245-283 | a whole restart, whoever dies or fails meanwhile, is a run of the supervisor steps and keeps the start order; begun at the earliest dead child, completed and undisturbed, it leaves all three children running |
| `Supervisor.SupervisorRuntime.AwaitExit` | src/kernel/kernel/supervisor/runtime.py:256-264 | waiting for a child ends with the child not running, or fails |
| `RestartBudget.RestartBudget.Consume` | src/kernel/kernel/supervisor/runtime.py:382-391 | grants if fewer than five attempts fall into the last 60 seconds, and forgets older ones |
| `RestartBudget.PrunedIsHistory` | src/kernel/kernel/supervisor/runtime.py:382-391 | for nondecreasing clocks the pruned list is the full grant history restricted to the last 60 seconds |
| `RestartBudget.GrantsAreHistory` | src/kernel/kernel/supervisor/runtime.py:382-391 | the grants are those of a budget that never forgets |
| `RestartBudget.AtMostFivePerWindow` | src/kernel/kernel/supervisor/runtime.py:382-391 | no closed 60-second window contains more than five grants |
| `RestartBudget.RefusedIffFiveRecent` | src/kernel/kernel/supervisor/runtime.py:382-391 | a restart is refused if and only if five grants fall into the preceding 60 seconds |
| `MemoryExtractor.Coalesces` | archive/daemon/daemon/engine/orchestrator/memory_extractor.py:92-172 | at every moment of every run at most one extraction is in flight, a stash exists only meanwhile, runs never outnumber due snapshots, and whenever nothing is in progress the last run used the latest due snapshot |
| `MemoryExtractor.CatchesUp` | archive/daemon/daemon/engine/orchestrator/memory_extractor.py:157-172 | at any moment of any run, two ends of tasks at most leave the extractor idle with the latest due snapshot extracted: what was stashed is run |
| `MemoryExtractor.DueIsEveryNth` | archive/daemon/daemon/engine/orchestrator/memory_extractor.py:77-107 | with interval n the snapshots let through are those of every n-th eligible trigger and no other, whatever tasks do meanwhile |
| `MemoryExtractor.WindowIsNewest` | archive/daemon/daemon/engine/orchestrator/memory_extractor.py:135-155 | a snapshot is the newest part of the conversation, of the window's length or all of it |
| `MemoryExtractor.EveryRun` | archive/daemon/daemon/engine/orchestrator/memory_extractor.py:92-172 | the underlying invariant over every interleaving of triggers, task ends and callbacks |
| `MemoryExtractor.MemoryExtractor.MaybeTrigger` | archive/daemon/daemon/engine/orchestrator/memory_extractor.py:77-107 | the in-place trigger performs exactly the trigger step |
| `MemoryExtractor.MemoryExtractor.TaskDone` | archive/daemon/daemon/engine/orchestrator/memory_extractor.py:135-172 | the completion callback performs exactly the callback step, trailing run included |
| `ConfigMerge.PrecedenceIff` | archive/daemon/daemon/config/project.py:168-191 | on every path the merged value is the higher layer's where it has one and else the lower layer's, except that two allow or deny lists are joined, if and only if no dictionary meets a value |
| `ConfigMerge.ThreeLayers` | archive/daemon/daemon/config/project.py:80-104 | local over project over user, on every path, with allow and deny lists joined |
| `ConfigMerge.HighestLayerWins` | archive/daemon/daemon/config/project.py:168-191 | for any two layers, a key only one of them has keeps its value, and the higher layer's value wins unless two dictionaries or two joined lists meet |
| `ConfigMerge.ProtectedKeysAreTheUsers` | archive/daemon/daemon/config/project.py:155-165 | whatever project and local layers hold, the protected settings are the user's |
| `ConfigMerge.ProviderAndDaemonAreTheUsers` | archive/daemon/daemon/config/project.py:80-104 | as set up by the program these are the provider, the daemon and the default provider |
| `ConfigMerge.UnionIsOrderedUnion` | archive/daemon/daemon/config/project.py:179-188 | a joined list starts with the lower layer's items, then has, in order, items of the higher layer, each the first of its representation there and new; and it represents every item of both |
| `ConfigMerge.DeepMerge` | archive/daemon/daemon/config/project.py:168-191 | the recursive copy-and-apply computes the merge these lemmas speak about, in whatever order the keys are visited |
| `ConfigMerge.MergeConfigs` | archive/daemon/daemon/config/project.py:62-104 | strips the two untrusted layers and merges in order |
| `ConfigMerge.StripDisallowed` | archive/daemon/daemon/config/project.py:155-165 | deletes exactly the protected keys |
| `OobeState.StateReadsBackIff` | src/cli/src/config/loader.ts:202-214 | for every text that parses, writes no top-level key twice, and has no field of the section in another section too, saving the state and parsing gives the old configuration with only oobe replaced by the state, if and only if the text is tidy and both dates are free of quotes, backslashes, control characters and line separators |
| `OobeState.TidyStateReadsBackIff` | src/cli/src/config/loader.ts:202-214 | for every tidy text that parses, whatever it writes twice, the same holds if and only if both dates are so |
| `OobeState.SavedStateIsNotJson` | src/cli/src/config/loader.ts:61-71 | saving into a text that parses never yields a text that is taken for JSON |
| `OobeState.SaveAgainIff` | src/cli/src/config/loader.ts:202-228 | a later save gives the text it would have given alone, and saving the same state again changes nothing, if and only if no kept line ends in a carriage return |
| `OobeState.SavingTwiceCanChange` | src/cli/src/config/loader.ts:202-228 | a text of two lines on which saving the same state twice changes the file |
| `OobeState.SaveCliOobeState` | src/cli/src/config/loader.ts:202-214 | the kept text, trimmed, a blank line and the joined block, as `saveCliOobeState` writes them, are the text these theorems speak about |
| `ConfigSave.SavedTextParses` | src/cli/src/config/loader.ts:73-101 | for any section, any fields that are read back and any tidy text that parses, parsing the saved text gives the old parse with that section replaced |
| `ClientFile.OthersUntouchedIff` | src/cli/src/config/loader.ts:202-228 | for every text that parses, writes no top-level key twice, and has no field of the section in another section too, the saved text parses and every other key keeps its value if and only if the text is tidy |
| `ClientFile.EditsRightIff` | src/cli/src/config/loader.ts:216-228 | for every text that parses, the editor removes only lines the parser attributes to the section and leaves every kept line in its own section, if and only if the text is tidy |
| `ClientFile.LookingReads` | src/cli/src/config/loader.ts:73-101 | the program's editor and parser see lines alike as far as the general results need: space at the end, headers, indentation, written sections |
| `ConfigSave.SavedMeans` | src/cli/src/config/loader.ts:202-228 | for every text, parsing what was saved gives what the kept lines parse to, with the section written into it |
| `ConfigSave.TextSays` | src/cli/src/config/loader.ts:202-228 | the saved text says what the kept lines say, and then the new section |
| `ConfigResave.LaterSaveWinsIff` | src/cli/src/config/loader.ts:202-228 | the same as SaveAgainIff for any section and fields |
| `ConfigResave.BodyOfSaved` | src/cli/src/config/loader.ts:216-228 | the editor finds its own body again in a saved text, one carriage return less per line |
| `ConfigResave.SavingTwiceCanChange` | src/cli/src/config/loader.ts:216-228 | the same for any section: a kept line that ends in two carriage returns loses one with every save |
| `ConfigItems.EditedRightIff` | src/cli/src/config/loader.ts:216-228 | line by line: removed lines belong to the section and kept lines stay in theirs, if and only if no removed line is a tab-led entry of another key and no nested entry stands between a column-0 comment in the section and the next top-level entry, unless it falls into an earlier piece of the same section |
| `ConfigItems.OthersKeptIff` | src/cli/src/config/loader.ts:216-228 | with no top-level key written twice and no field of the section in another one, the kept lines give every other key its value if and only if the text is tidy |
| `ConfigItems.WrittenBehind` | src/cli/src/config/loader.ts:73-101 | writing a section behind any lines replaces the section of that name and nothing else |
| `ConfigItems.KeptParses` | src/cli/src/config/loader.ts:216-228 | the kept lines of a tidy text that parses parse, and give every other key its value |
| `ClientFile.CommentMakesUnreadable` | src/cli/src/config/loader.ts:216-228 | header, column-0 comment and field: saving leaves the field without a section, and the file does not parse any more |
| `ClientFile.CommentMovesField` | src/cli/src/config/loader.ts:216-228 | the same behind another section: saving silently moves the field into that section |
| `ClientFile.TabLosesKey` | src/cli/src/config/loader.ts:216-228 | header and tab-led entry: saving loses the top-level key that the parser reads there |
| `ClientFile.PlainLayoutIsTidy` | src/cli/src/config/loader.ts:216-228 | a text without tab-led lines and column-0 comments is tidy |
| `ClientFile.ParseClientConfig` | src/cli/src/config/loader.ts:61-71 | a blank text is an empty configuration, a brace means JSON, and all else is the line parser |
| `ConfigFormat.ParsedIsNotJson` | src/cli/src/config/loader.ts:61-71 | what the line parser accepts is never taken for JSON |
| `ConfigFormat.BadFieldFails` | src/cli/src/config/loader.ts:82-86 | a field that cannot be read makes the whole saved text unreadable |
| `JsonText.QuoteReadsBackIff` | src/cli/src/config/loader.ts:113-123 | a string written as JSON is read back as itself if and only if nothing in it needs an escape |
| `JsonText.JsonRoundTrip` | src/cli/src/config/loader.ts:203-210 | a string written as JSON is what a JSON reader gets back from it |
| `JsonText.QuoteIsWhole` | src/cli/src/config/loader.ts:103-111 | no number sign inside a string written as JSON is taken for a comment |
| `ClientConfig.ParseSimpleYaml` | src/cli/src/config/loader.ts:73-101 | the loop over the lines returns the parse or the first error, with its line number |
| `ClientConfig.ScalarIff` | src/cli/src/config/loader.ts:113-123 | which scalar a value stands for, both ways: null, the truth values, digits behind at most a minus sign, and everything else as a string without its quotes |
| `ClientConfig.LaidOutReads` | src/cli/src/config/loader.ts:78-98 | every line that is a key, a colon and a value with any space around them is an entry of that key and value at the indentation of its first spaces |
| `ClientConfig.EntryIsLaidOut` | src/cli/src/config/loader.ts:78-98 | and only such lines are entries |
| `ClientConfig.StripYamlComment` | src/cli/src/config/loader.ts:103-111 | cuts the line at the first number sign outside quotes |
| `ClientConfig.CommentStartsOutside` | src/cli/src/config/loader.ts:103-111 | that is the first number sign outside every quotation, which runs from a quote outside all others to the next of its kind, quotes behind a backslash not counting |
| `ClientConfig.RemoveTopLevelSection` | src/cli/src/config/loader.ts:216-228 | keeps the lines outside the section |
| `ClientConfig.ClassifyTrailing` | src/cli/src/config/loader.ts:78-82 | space at the end of a line does not change how it is read |
| `ClientConfig.FieldReads` | src/cli/src/config/loader.ts:203-210 | a written field is read as a nested entry, from its key and its text as they stand |
| `ClientFile.FieldIsReadBack` | src/cli/src/config/loader.ts:203-210 | a field whose text needs no escape is read back as the scalar its text stands for |

## Left out

- LLM providers, MCP, hooks, the WebSocket endpoint, the agent hub server and the terminal interface: network I/O, user interface or thin dispatch.
- Grapheme segmentation, display width and the tokenising of escape sequences: the wrapper takes tokens with given widths. Numbers in SGR fields beyond 2^53 are exact in the model.
- Aliasing of message objects: messages, blocks and adapter events are values, and an object shared between an event and the message list is not modelled.
- Adapter metadata: usage, durations, titles, modes and tool result contents do not appear in the messages compared. The quiet-time wait of `loadSession` is taken as having seen the whole stream, and a load that raises is not modelled.
- Client callbacks that re-enter the client, permission requests, and the delivery of notifications to handlers.
- Torn log lines: damage is the loss of whole lines, or lines that do not parse. `update_usage`, `read_tail` and the metadata file are not modelled.
- `pending_tool_calls`, `find_project_root`, the gitignore editor and `_format_transcript`: they would only add easy members.
- The text of summaries and the accuracy of the token estimate: a summary is an arbitrary string, and the length of a dumped block is a parameter.
- `mergeConfig`, the environment and argument overrides and validation of the client configuration: straight-line code. JSON configurations are the library's.
- Keys named `__proto__` in the client configuration: the model's mapping has no prototype.
- Revisions that are not integers, or so large that JavaScript prints them with an exponent, and strings with unpaired surrogates.
- Runtime files, readiness probes, the control socket and `stop` of the supervisor; processes are abstracted to instances that run or have exited.
- `drain` of the extractor, which does not await a trailing extraction, and the extraction itself.
- The order of dictionary keys in merged configurations.
- `ClientFile.OthersUntouchedIff`: asks that no top-level key is written twice and no field of the section stands in another section too, because otherwise a loss can be hidden; `ClientFile.EditsRightIff` and `ConfigSave.SavedTextParses` do not.
- `OobeState.StateReadsBackIff`: asks the same for the same reason; `OobeState.TidyStateReadsBackIff` does not.
- `RestartBudget.AtMostFivePerWindow`: asks for a clock that does not run backwards, because the pruned list forgets grants that a clock set back would need.
