# A verified model of the travel agent's protocol cores

The project models the parts of the travel agent where several things happen at once or where one side
must believe what another side says: the client's run state and its background streams, the delivery
protocol over the event stream, the execution of a tool call, the ReAct loop, and several smaller cores.
Everything a core cannot decide itself (the network, the model, providers, the ledger, the clock) is an
adversary: an event list or a script that may answer anything.

## The modules

- `Json`: JSON values and the printer the client compares deliveries with. Two values print the same
  text exactly when they are the same value up to the order of object keys.
- `SseFrames`: the read loop of the chat stream. What reaches the listener depends on the text alone,
  never on how it was cut into chunks.
- `Options`, `AppState`, `ReducerLaws`, `ReducerEffects`, `StreamLaws`: the client reducer with its 53 actions, its
  snapshot projection, and its laws: invariants, commuting tool results, racing deliveries, what each action changes
  and leaves alone, and what whole streams of reasoning text, usage and history pages leave behind.
- `SessionRuntime`, `BackgroundStream`: a stream whose session is left and re-entered while it runs.
- `DeliveryHandshake`: the ready and terminal frames of a delivery.
- `EventWindow`: the durable event log, its retained window on the server, the polling client.
- `ExecuteTool`: retries, budget, deadline and fallback of one tool call.
- `ToolResults`: whether a provider failed, answered with nothing, or answered with content.
- `ReactLoop`: model rounds, tool calls and the transcript they build.
- `PlaceSearch`, `WaypointOrder`, `Compaction`, `RoundNames`, `Census`: the smaller cores.
- `Lists`, `RunClock`: first-occurrence order and the answers of the run's clock, shared by several modules.

Code that changes variables is a method or a class proved against a specification; the theorems are
lemmas about that specification, for every run. Time stamps and fresh ids are arguments of the actions.

## What the code does not promise

The model keeps the code as it is. Each item names the lemmas that show where a property fails and exactly when it holds.

- A frame that arrives between the last caching of a session and the commit of a switch away from it is
  lost (`FrameBeforeCommitIsLost`). A named session with no switch under way at the start holds everything
  sent to it exactly when no departure overtakes a frame, that is, no switch away commits after an action was
  taken on screen that no caching followed (`QuietRunLosesNothing`, and `BackgroundEqualsForeground` for every start).
- A new chat left before it was first cached under its name keeps nothing of its own: the client has no facts
  of its session until that is opened from history (`UnannouncedChatIsLost` shows one such run). It is kept
  exactly when no switch away commits before the first caching that follows its naming, and it is complete
  exactly when, besides, no later departure overtakes a frame (`NewChatIsKeptIff`).
- Two deliveries of one run, neither behind the other in all revisions, race: the first one stays
  (`IncomparableDeliveriesRace`). All orders agree exactly when one delivery is ahead of every other
  (`DeliveriesConverge`).
- Reasoning text streamed while the last step is a tool call is dropped; otherwise every word is kept
  (`ReasoningIsKeptIff`).
- A delivery in which a number is too large to hold counts as equal to one with null in its place
  (`CanonicalTextIsEquality`).
- An event window that is not flagged as expired can move the cursor over an event it does not hand on
  (`FirstPollMayPassOverSilently`, with the client's own limit and the default retention). That happens
  exactly at cursor zero of a log that starts below the replay floor (`UnflaggedLossIff`).
- A model call without an id, or a question nobody may ask, leaves an ill-formed transcript
  (`MissingIdBreaksTranscript`, `DeniedQuestionBreaksTranscript`, `BrokenRoundsOccur`). At a model call the
  transcript is well formed exactly when no earlier round had either (`TranscriptWellFormedIff`).
- A cancellation that arrives while the fallback waits ends in an ordinary failed envelope
  (`FallbackCancellationIsSwallowed`, `CancelledFallbackOccurs`). An exception reaches the caller exactly
  when the registry or the gateway breaks or the run is cancelled before any attempt, or an attempt that is
  made breaks off (`CancellationReachesCallerIff`).
- A scoped retry of a base name with an at-sign is handed its second round even when that is taken
  (`AtSignReusesKey`). The key is new exactly under the condition of `ScopedKeyIsNew`. No caller in the repository
  gets there: both pass a constant node name without an at-sign
  (src/travel_agent/agents/destination_researcher/node.py:1395, src/travel_agent/agents/accommodation_researcher/node.py:836).
- The ReAct loop ends with an unbound name exactly when its bound is zero or less (`StreamingReactLoop`).

## Model

| member | source | states |
|---|---|---|
| `Json.CanonicalTextIsEquality` | frontend/src/hooks/useSendMessage.ts:16-27 | Canonical texts are equal exactly when the values are the same up to key order, at any depth, a number too large to hold being the same as null |
| `Json.ValueDetermines` | frontend/src/hooks/useSendMessage.ts:16-27 | A canonical text followed by any delimiter determines both the value and what follows: the printer is injective and prefix-free |
| `Json.SameValueSameText` | frontend/src/hooks/useSendMessage.ts:20-25 | Reordering object keys anywhere does not change the text |
| `Json.QuoteDetermines` | frontend/src/hooks/useSendMessage.ts:23-26 | A quoted string, escapes and lone surrogates included, determines the string and what follows it |
| `Json.PlainPrintsAsItself` | frontend/src/hooks/useSendMessage.ts:23-26 | A string prints as itself exactly when it holds no quote, backslash, control character or lone surrogate |
| `SseFrames.SplitIsLeftmost` | frontend/src/lib/sse.ts:154-155 | Every cut is at a blank line, and none is left over: no frame holds a separator, none starts before its cut, and the frames and their separators put back together are the text |
| `SseFrames.SplitAppend` | frontend/src/lib/sse.ts:149-159 | Splitting the kept tail and the next chunk yields the same frames and tail as splitting the whole text, wherever the cut falls |
| `SseFrames.FrameMeans` | frontend/src/lib/sse.ts:48-54 | The data of a frame is that of its lines that start with the data prefix, each without the prefix and its leading blanks, joined by line feeds and trimmed at both ends |
| `SseFrames.DispatchFrames` | frontend/src/lib/sse.ts:156-158 | The frame loop hands on the carried payloads in order and stops at the first one the listener, which may remember what it handled, rejects |
| `SseFrames.ReadLoop` | frontend/src/lib/sse.ts:140-162 | For every chunking and every listener, with memory or without, the payloads handed on are those of the whole text read; the tail is flushed once, and only if the body came to its end |
| `SseFrames.StreamChat` | frontend/src/lib/sse.ts:110-171 | At most three attempts, a further one only after a transient refusal, none once the stream is open or the signal is aborted; the error handler is told of a rejected payload or a lost connection, and of nothing when the body is called off |
| `SseFrames.BrokenBodyIsPrefix` | frontend/src/lib/sse.ts:149-171 | A body that breaks off hands on a first part of what it would have handed on had it gone on, however it then ended |
| `SseFrames.RoundTrip` | src/travel_agent/api/routes/chat_helpers.py:206-208 | Payloads framed by the server come back at the listener in order, all of them or up to the first it rejects, even if the connection is lost behind them |
| `ReducerLaws.SessionPartIsClosed` | frontend/src/context/AppContext.tsx:349-791 | What an action does to the session's facts depends on those facts alone |
| `ReducerLaws.RunsAgree` | frontend/src/context/AppContext.tsx:199-232 | Any action list takes states with equal facts to states with equal facts |
| `ReducerLaws.ReduceSound` | frontend/src/context/AppContext.tsx:363-415 | Every action keeps: a delivery belongs to the current run, and a full-screen canvas is open |
| `ReducerLaws.EpochCountsSwitches` | frontend/src/context/AppContext.tsx:438-465 | The conversation epoch moves by one on a restore, a clear or a replaced thread, and otherwise stays |
| `ReducerLaws.ResultsLand` | frontend/src/context/AppContext.tsx:626-676 | After parallel tool results each addressed step shows its update's status or Completed, result and clock, its other reports where given, and keeps its identity, name and arguments; no other step changes, and the last assistant message mirrors the steps |
| `ReducerLaws.AddressMeans` | frontend/src/context/AppContext.tsx:636-645 | An update with a call id is for the first step that carries it as call id or as its own id |
| `ReducerLaws.ParallelResultsCommute` | frontend/src/context/AppContext.tsx:539-553 | Any permutation of tool results with distinct ids on distinct steps ends in the same state |
| `ReducerLaws.ShownNeverGoesBack` | frontend/src/context/AppContext.tsx:136-156 | What is shown is one of the deliveries, and no revision shown ever decreases |
| `ReducerLaws.DeliveriesConverge` | frontend/src/context/AppContext.tsx:401-415 | Every order of a run's deliveries, with duplicates, ends at one manifest exactly when that manifest is ahead of all others |
| `ReducerLaws.IncomparableDeliveriesRace` | frontend/src/context/AppContext.tsx:152-155 | Any two deliveries of a run, neither behind the other in all revisions, end differently in the two orders: the first stays |
| `ReducerEffects.UnnamedResultLands` | frontend/src/context/AppContext.tsx:639-676 | A result whose call is not known lands on the last step that still runs for the agent and tool it names, else on the last step if that is a tool call, and otherwise changes nothing |
| `ReducerEffects.ReasoningStep` | frontend/src/context/AppContext.tsx:583-625 | Reasoning text opens a step, extends the last one under the agent it names, or is dropped after a tool call |
| `ReducerEffects.FinishMeans` | frontend/src/context/AppContext.tsx:554-582 | Finishing the last step sets its end once, and a duration exactly when both stamps are there in order and none is known; finishing it twice is finishing it once |
| `ReducerEffects.StepsStore` | frontend/src/context/AppContext.tsx:537-676 | No step action touches anything but the steps and their copy in the last message |
| `ReducerEffects.RunSwitch` | frontend/src/context/AppContext.tsx:363-380 | Another run drops the last one's status, recovery, card, delivery and view; the same run keeps them all |
| `ReducerEffects.RunStatus` | frontend/src/context/AppContext.tsx:381-400 | Once a run no longer waits for the user no message waits for an approval and no gate is open, and every other message is untouched |
| `ReducerEffects.ConfirmMeans` | frontend/src/context/AppContext.tsx:401-415 | An offered delivery is taken exactly when nothing of its run is shown, the same bundle is, or it is ahead in a revision and behind in none; otherwise nothing changes |
| `ReducerEffects.InsertMeans` | frontend/src/context/AppContext.tsx:471-485 | A message is inserted right before the first one of the given id, else at the end, and never twice |
| `ReducerEffects.PatchesMean` | frontend/src/context/AppContext.tsx:486-529 | A patch overwrites exactly what it gives, in exactly the messages it is for |
| `ReducerEffects.RemapsMean` | frontend/src/context/AppContext.tsx:493-536 | A message takes its new id where it stands, and once nothing is awaited exactly the waiting messages have become ordinary |
| `ReducerEffects.RemovalsMean` | frontend/src/context/AppContext.tsx:426-437 | Removing takes out exactly what has the id and moves nothing; renaming changes exactly the titles under the id |
| `ReducerEffects.ClearStartsAnew` | frontend/src/context/AppContext.tsx:752-787 | Clearing the chat, from any state, leaves the facts a client starts with, but for a refresh key that has moved on |
| `StreamLaws.ReasoningIsKeptIff` | frontend/src/context/AppContext.tsx:583-625 | However it is cut into chunks, streamed reasoning joins the text on screen word for word exactly when the last step is not a tool call |
| `StreamLaws.ChunksJoin` | frontend/src/context/AppContext.tsx:604-624 | The text after any chunks is the text before and the chunks joined, or the facts are untouched after a tool call |
| `StreamLaws.UsageAddsUp` | frontend/src/context/AppContext.tsx:681-700 | After any updates of any runs a run's totals are all that was reported since its updates last began, on top of those shown before if no other run came first, and from nothing otherwise |
| `StreamLaws.ThreadKeepsItsOrder` | frontend/src/context/AppContext.tsx:447-470 | However history pages interleave with arriving messages, the thread is the pages, latest loaded first, then what was there, then the arrivals |
| `SessionRuntime.Client.constructor` | frontend/src/hooks/useSendMessage.ts:125-135 | A stream starts attached to the session on screen |
| `SessionRuntime.Client.ScopedDispatch` | frontend/src/hooks/useSendMessage.ts:149-177 | A frame reaches the screen or the cached snapshot, never both |
| `SessionRuntime.FrameIsShownIff` | frontend/src/hooks/useSendMessage.ts:149-177 | A frame reaches the screen exactly when its stream still holds the handle and its chat, or the new chat it began in, is on screen; otherwise it does to the cached facts of the session served, if there are any, what it would do to them on screen, and nothing else changes |
| `SessionRuntime.Client.AcceptChatStart` | frontend/src/hooks/useSendMessage.ts:400-411 | Naming the session updates the stream, its handle and the state it serves |
| `SessionRuntime.Client.CacheCurrentRuntimeIfStreaming` | frontend/src/hooks/useSessionManager.ts:131-142 | The session left behind is cached exactly when the stream serves it |
| `SessionRuntime.Client.OpenSession` | frontend/src/hooks/useSessionManager.ts:162-187 | The synchronous part of a switch: nothing, a restore from the cache, or a load under a new sequence number |
| `SessionRuntime.Client.OnDetail` | frontend/src/hooks/useSessionManager.ts:188-193 | A late answer of a superseded switch does nothing; else the session is cached again |
| `SessionRuntime.Client.OnBundle` | frontend/src/hooks/useSessionManager.ts:195-279 | A superseded switch never commits; a current one shows the loaded session, as HistoryIsShown states it |
| `SessionRuntime.HistoryIsShown` | frontend/src/hooks/useSessionManager.ts:107-279 | A session opened from history shows its messages with their ids, roles, contents and steps, those that waited for an approval as ordinary ones exactly when the run does not await the user; its gate exactly in that status; its delivery, with the canvas open, exactly when that is of its run; its paging and steps; and no selection, pending choice or stream flag of the session before |
| `SessionRuntime.NextSound` | frontend/src/hooks/useSessionManager.ts:162-284 | Every event keeps the state and all cached snapshots sound |
| `SessionRuntime.NextEpoch` | frontend/src/hooks/useSessionManager.ts:176-186 | Each event raises the epoch by one if it switches the thread on screen, and otherwise leaves it |
| `SessionRuntime.ReachableInvariants` | frontend/src/context/AppContext.tsx:712-787 | In every reachable state and every cached snapshot the invariants hold, and the epoch never decreases |
| `BackgroundStream.BackgroundEqualsForeground` | frontend/src/hooks/useSendMessage.ts:149-177 | For a named session or a new chat, with switches in flight or not, and however often it is left and re-entered: what the client holds is what a visible run makes of the actions it took; these are all that was sent exactly when it was never left uncached, never opened from history, and never left with its snapshot behind |
| `BackgroundStream.QuietRunLosesNothing` | frontend/src/hooks/useSessionManager.ts:131-186 | A named session with no switch under way at the start is never left uncached, so it ends with the facts of an uninterrupted visible run of everything sent if no departure overtakes a frame, and does not hold all of it otherwise |
| `BackgroundStream.NewChatIsKeptIff` | frontend/src/hooks/useSendMessage.ts:150-163 | From any visible new chat: the client holds everything sent exactly when no switch away commits before the first caching after the naming and none later overtakes a frame; a chat left before has no facts until its session is opened from history |
| `BackgroundStream.QuietIffNotBehind` | frontend/src/hooks/useSessionManager.ts:131-142 | While a chat is kept, its snapshot falls behind at a departure exactly when an action was taken on screen after the last caching |
| `BackgroundStream.EveryStreamStarts` | frontend/src/hooks/useSendMessage.ts:60-68 | Every stream, whatever switches are in flight, begins in a named session or a new chat, the two starts of these theorems |
| `BackgroundStream.FrameBeforeCommitIsLost` | frontend/src/hooks/useSessionManager.ts:193-279 | A frame in the second await is due but never taken, and the session comes back without it |
| `BackgroundStream.UncachedFramesAreLost` | frontend/src/hooks/useSendMessage.ts:159-163 | Off screen and uncached, any number of frames change nothing at all |
| `BackgroundStream.UnannouncedChatIsLost` | frontend/src/hooks/useSessionManager.ts:131-138 | One such run: a new chat left before its naming is not cached, and while its session is not opened again no frame changes anything |
| `DeliveryHandshake.Handshake.FinalizeIfComplete` | frontend/src/hooks/useSendMessage.ts:247-285 | Finalizes once both frames are there and fit, fails if they do not fit, else does nothing |
| `DeliveryHandshake.Handshake.Accept` | frontend/src/hooks/useSendMessage.ts:287-339 | A frame is admitted, recognised as a repetition, or fails the protocol |
| `DeliveryHandshake.HandshakeAcceptsCoherentDeliveries` | frontend/src/hooks/useSendMessage.ts:240-339 | A frame list fails exactly when some frame is invalid or two disagree; a list that does not fail finalizes exactly when both kinds occur, with the first ready frame's bundle and the terminal frame's refresh |
| `DeliveryHandshake.OrderDoesNotMatter` | frontend/src/hooks/useSendMessage.ts:302-338 | Two lists of the same frames, in any order and with any repetition, end with the same outcome |
| `DeliveryHandshake.OnceOnly` | frontend/src/hooks/useSendMessage.ts:247-248 | No list confirms or finalizes more than once |
| `EventWindow.CollectNewEvents` | frontend/src/hooks/useDeliveryEventRecovery.ts:16-26 | The loop over a Map and the sort give the specified list |
| `EventWindow.OrderedNewEventsCorrect` | frontend/src/hooks/useDeliveryEventRecovery.ts:16-26 | Strictly increasing, exactly the first event to arrive with each new sequence number |
| `EventWindow.WindowIsExact` | src/travel_agent/infrastructure/trip_run_store.py:1808-1837 | A window that is not flagged as expired holds exactly the replayed events after the cursor up to its next cursor, in order |
| `EventWindow.WindowMeans` | src/travel_agent/infrastructure/trip_run_store.py:1808-1837 | For any cursor, limit and retention: a window is flagged exactly when the cursor is above zero and the event behind it is out of the log or of the retention, and is then empty and jumps to the end; any other holds the first events behind the cursor that are replayed, as many as the limit lets through |
| `EventWindow.RefusedAnswers` | frontend/src/hooks/useDeliveryEventRecovery.ts:28-46 | An answer of another run or cursor, or one that contradicts itself, changes nothing; any other moves the cursor to the larger of its next cursor and its last new event, and every new event is handed on |
| `EventWindow.PolledIsConsumed` | frontend/src/hooks/useDeliveryEventRecovery.ts:98-122 | Polling is consuming the answers the server gives to the cursors the client asks with |
| `EventWindow.ServerWindowIsValid` | src/travel_agent/api/routes/trip_runs.py:450-484 | The client never refuses the server's own window |
| `EventWindow.Monitor.Poll` | frontend/src/hooks/useDeliveryEventRecovery.ts:98-122 | One poll moves the run's cursor and hands on its new events as specified, and no other run's cursor |
| `EventWindow.PollingIsMonotone` | frontend/src/hooks/useDeliveryEventRecovery.ts:28-46 | For any answers at all the cursor never decreases and the events handed on strictly increase and lie within it |
| `EventWindow.EachEventOnce` | frontend/src/hooks/useDeliveryEventRecovery.ts:98-122 | Over any polls of a growing log, each event up to the cursor that was not passed over is handed on exactly once, in order |
| `EventWindow.CompleteIffNothingPassedOver` | src/travel_agent/infrastructure/trip_run_store.py:1824-1830 | The client has read the whole log up to its cursor exactly when no poll passed over an event |
| `EventWindow.UnflaggedLossIff` | src/travel_agent/infrastructure/trip_run_store.py:1818-1837 | A window that is not flagged as expired moves the cursor over an event it does not hold exactly at cursor zero of a log that starts below the replay floor |
| `EventWindow.FirstPollPassesOver` | src/travel_agent/api/routes/trip_runs.py:454-474 | With the client's limit and the default retention, a first poll of any such log passes over its first event unflagged |
| `EventWindow.FirstPollMayPassOverSilently` | frontend/src/lib/api.ts:281-295 | A log of 501 events is such a log |
| `ExecuteTool.AttemptCounts` | src/travel_agent/agents/utils.py:787-832 | What one attempt reserves, calls, schedules and audits, each call after its own reservation |
| `ExecuteTool.AttemptIsShaped` | src/travel_agent/agents/utils.py:832-895 | Within an attempt nothing follows a success, and only failures worth retrying are tried again |
| `ExecuteTool.AttemptLoop` | src/travel_agent/agents/utils.py:783-895 | The loop makes the attempts the script leads to, in order and within bounds, and gives up only when all were made or one failure was final |
| `ExecuteTool.EndMeans` | src/travel_agent/agents/utils.py:783-895 | The attempts end by an exception, a closed window, an exhausted budget, a last failure or an answer, each exactly when some attempt that was reached met its cause: which clock, refusal or answer that is is read off the script |
| `ExecuteTool.ShutExcludesFallback` | src/travel_agent/agents/utils.py:862-906 | Once an attempt that was reached met a closed window or an exhausted budget, no fallback is asked |
| `ExecuteTool.FallbackIsAskedIff` | src/travel_agent/agents/utils.py:897-935 | A fallback is asked exactly when the main tool failed, by itself and for good, and a fallback is possible |
| `ExecuteTool.FallbackMeans` | src/travel_agent/agents/utils.py:897-1011 | What the fallback reserves, calls and answers with, its closed window and its refusal, each exactly under its condition on the script |
| `ExecuteTool.FallbackIsShaped` | src/travel_agent/agents/utils.py:897-1011 | The fallback is asked about exactly when it is possible, is called at most once, and its success ends the log |
| `ExecuteTool.FallbackIsCounted` | src/travel_agent/agents/utils.py:936-990 | A fallback call has its own earlier reservation, and only its success is audited here |
| `ExecuteTool.ShutIsHonest` | src/travel_agent/agents/utils.py:862-870 | A shut window or budget is recorded, ends in one failed envelope that says so, and excludes a fallback |
| `ExecuteTool.FallenIsHonest` | src/travel_agent/agents/utils.py:897-1036 | After a failed main tool the envelope, the order and the counts tell what the fallback did |
| `ExecuteTool.EnvelopeMeans` | src/travel_agent/agents/utils.py:832-1036 | Status, payload, degradation and the window and budget flags of an envelope, each exactly under its condition on the script |
| `ExecuteTool.PreflightMeans` | src/travel_agent/agents/utils.py:600-683 | What comes back before any attempt: a closed window, a spent budget or exhausted retries, each exactly under its condition, and a snapshot hit that is audited and nothing else |
| `ExecuteTool.ExecuteTool` | src/travel_agent/agents/utils.py:582-1036 | On every script: which kind of result comes back and when; calls follow reservations; main calls at most retries plus one, one fallback; retries recorded are main reservations minus one; the fallback is asked exactly when the main tool failed for good and one is possible; status, payload and flags say what the script made happen; audits are scheduled retries plus one |
| `ExecuteTool.ResultKinds` | src/travel_agent/agents/utils.py:600-683 | The gateway's verdict, a refusal, an exception or an envelope: each exactly under its condition on the script, and the fallback gateway's verdict is its own |
| `ExecuteTool.CancellationReachesCallerIff` | src/travel_agent/agents/utils.py:606-895 | An exception reaches the caller exactly when the registry or the gateway breaks or the run is cancelled before any attempt, or an attempt that is made breaks off |
| `ExecuteTool.FallbackCancellationIsSwallowed` | src/travel_agent/agents/utils.py:999-1006 | A cancellation while an asked, allowed and granted fallback waits ends in an ordinary failed envelope |
| `ExecuteTool.CancelledFallbackOccurs` | src/travel_agent/agents/utils.py:1002-1006 | Such a script |
| `ToolResults.OutcomesMean` | src/travel_agent/agents/utils.py:1053-1082 | An empty success is exactly a reported success with nothing in any of the six fields; content is exactly a question, or a first filled field in which no text, at any depth, reports an error |
| `ToolResults.ErrorsAreFound` | src/travel_agent/agents/utils.py:1126-1134 | An error is found exactly when some text held anywhere in the value, at any depth, reports one |
| `ToolResults.IsErrorTextMeans` | src/travel_agent/agents/utils.py:1127-1129 | A text reports an error exactly when, after its leading blanks and in any case, it starts with one of the four openings |
| `ToolResults.FirstTruthyMeans` | src/travel_agent/agents/utils.py:1067-1074 | The chain of fields yields a filled value exactly when some field is filled, and then the first |
| `ToolResults.LaterErrorIsContent` | src/travel_agent/agents/utils.py:1075-1076 | An error text in any field after the first filled one goes unnoticed |
| `ReactLoop.WellFormedRounds` | src/travel_agent/agents/utils.py:1849-2087 | A transcript of rounds is well formed exactly when every round answered each of its calls once, in order, under its id |
| `ReactLoop.ActivateMatches` | src/travel_agent/agents/utils.py:1896-1904 | Found tools join the active ones, each named tool once, in order |
| `ReactLoop.AnswerCalls` | src/travel_agent/agents/utils.py:1857-2055 | Calls are answered from the first on, up to the first that stops the round, and why it stopped; the answer to a search names the tools it newly activated |
| `ReactLoop.BreakerMeaning` | src/travel_agent/agents/utils.py:2065-2073 | The circuit breaker speaks exactly when every call was answered, something failed and everything else failed or was declared unavailable; a round left early never trips it |
| `ReactLoop.NoticeMeans` | src/travel_agent/agents/utils.py:2065-2087 | The notice of a round: the breaker exactly when every call was answered, some call other than a search failed and all failed or were declared; the unavailable tools exactly when some answered call was declared and none succeeded, each such tool once, in order; none exactly when neither holds |
| `ReactLoop.StreamingReactLoop` | src/travel_agent/agents/utils.py:1751-2094 | Model calls number at most the bound, one more under deferred exposure; the first sees the catalog; each saw all earlier rounds; each round's notice is what NoticeMeans says of its answers; the ending is the one of the first event that stops the loop, no model call is made after a cancellation or a closed window at the loop head, and the transcript is the whole rounds and what the last one left |
| `ReactLoop.OneEnding` | src/travel_agent/agents/utils.py:1813-2094 | Bound and script fix the number of whole rounds, the number of model calls and the ending: no two endings fit one run |
| `ReactLoop.TranscriptWellFormedIff` | src/travel_agent/agents/utils.py:1813-2087 | At a model call the transcript is well formed exactly when every earlier call had an id and no tool put a question |
| `ReactLoop.LaterCallsSeeMore` | src/travel_agent/agents/utils.py:1786-1811 | History is only extended, and a tool is activated once |
| `ReactLoop.SearchedToolsAreExposed` | src/travel_agent/agents/utils.py:1889-1930 | A tool a search call found is exposed at the next model call |
| `ReactLoop.MissingIdBreaksTranscript` | src/travel_agent/agents/utils.py:1869 | Any round with a call without an id leaves the transcript ill-formed |
| `ReactLoop.DeniedQuestionBreaksTranscript` | src/travel_agent/agents/utils.py:1987-2007 | Any round with a question that does not end the loop leaves that call and all later ones unanswered and the transcript ill-formed |
| `ReactLoop.BrokenRoundsOccur` | src/travel_agent/agents/utils.py:1850-2055 | Rounds of both kinds occur |
| `PlaceSearch.SearchRunner.Run` | frontend/src/lib/placeSearch.ts:94-109 | A new search takes the next ticket, the clock and the field |
| `PlaceSearch.SearchRunner.Settle` | frontend/src/lib/placeSearch.ts:110-131 | A reply writes the field exactly when its ticket is the newest |
| `PlaceSearch.SearchRunner.Cancel` | frontend/src/lib/placeSearch.ts:82-88 | A cancel retires the newest ticket and the clock, and leaves the field alone |
| `PlaceSearch.EveryRunIsSound` | frontend/src/lib/placeSearch.ts:64-134 | In every run the clock and the request in flight belong to the newest, waiting ticket, and a newest run is loading exactly while it waits |
| `PlaceSearch.ShownNeverGoesBack` | frontend/src/lib/placeSearch.ts:112-113 | The ticket behind the shown candidates never goes back |
| `PlaceSearch.NewestDecides` | frontend/src/lib/placeSearch.ts:94-131 | Whatever else settles, whenever, the field ends with the newest run's candidates, or with the error its own reply and timeout give |
| `PlaceSearch.CancelSilences` | frontend/src/lib/placeSearch.ts:82-131 | After a cancel nothing that settles changes the field until another search begins |
| `WaypointOrder.PinnedMapPlaceIds` | frontend/src/lib/waypointOrder.ts:22-32 | Exactly the physical places with both coordinates |
| `WaypointOrder.PinsKeepOrder` | frontend/src/lib/waypointOrder.ts:22-32 | The pins are the physical places with both coordinates, in the order and as often as they were given |
| `WaypointOrder.BuildWaypointOrder` | frontend/src/lib/waypointOrder.ts:51-73 | The nested loops number each place by its first appearance and list the days it was met on |
| `WaypointOrder.NumbersAreABijection` | frontend/src/lib/waypointOrder.ts:55-71 | Exactly the pinned places are numbered, by 1 to their count, each number once |
| `WaypointOrder.DaysAreTheVisits` | frontend/src/lib/waypointOrder.ts:58-66 | The days of a place are exactly the days whose timeline visits it, each once |
| `WaypointOrder.NumbersFollowTheTrip` | frontend/src/lib/waypointOrder.ts:58-71 | Numbers follow first appearance along the trip; pins without an entry come after, in their order |
| `WaypointOrder.NumberIffPin` | frontend/src/lib/waypointOrder.ts:84-91 | A stop has a number exactly when it is at a pinned place, and equal numbers mean one place |
| `Compaction.CompactTwice` | src/travel_agent/agents/utils.py:1517-1572 | Compacting twice is compacting once, for every value at any depth |
| `Compaction.LookupSurvives` | src/travel_agent/agents/utils.py:1526-1572 | No key of a result is lost or moved, and each value is compacted by itself |
| `Compaction.CompactShows` | src/travel_agent/agents/utils.py:1517-1572 | What compacting leaves, at any depth: texts cut to their limits, lists to their first items, the identity fields of places and routes, under the same keys in the same order |
| `Compaction.IdentityTwice` | src/travel_agent/agents/utils.py:1491-1514 | Picking the identity fields of a place or route twice is picking them once |
| `Compaction.PlacesSurvive` | src/travel_agent/agents/utils.py:1528-1535 | The first 12 places survive in order, each with exactly its identity fields, numbers as they were and texts cut to 400 characters |
| `Compaction.RoutesSurvive` | src/travel_agent/agents/utils.py:1536-1543 | The first 8 routes survive in order, each with exactly its identity fields, numbers as they were and texts cut to 400 characters |
| `RoundNames.StripUndoesMake` | src/travel_agent/agents/utils.py:237-262 | Stripping undoes naming exactly for rounds that are not negative |
| `RoundNames.StripMeans` | src/travel_agent/agents/utils.py:237-249 | A name loses exactly a last round suffix, a final line feed aside, and any other name is left alone |
| `RoundNames.ResearchRoundOfMake` | src/travel_agent/agents/utils.py:389-391 | The round read back is one less than printed when the base is one line of text, else zero |
| `RoundNames.ResearchRoundMeans` | src/travel_agent/agents/utils.py:389-391 | A key with a round suffix is of one round less, no less than zero, when what stands before is one line of text; every other key is of round zero |
| `RoundNames.RoundOfMake` | src/travel_agent/agents/utils.py:378-381 | A key printed for a round is looked up under that round |
| `RoundNames.RoundOfMeans` | src/travel_agent/agents/utils.py:378-381 | A key is looked up under a round exactly when it is the base, a round suffix with a number that reads as that round, and at most a final line feed |
| `RoundNames.ResolveAgentAssignment` | src/travel_agent/agents/utils.py:352-386 | The first key of the greatest round present is chosen, else the base, and it resolves exactly when it carries an objective |
| `RoundNames.ScopedKey` | src/travel_agent/agents/utils.py:394-416 | The resolved key if it is a new round, else the round after the greatest recorded |
| `RoundNames.GreatestMeans` | src/travel_agent/agents/utils.py:409-416 | The greatest round recorded is one that a packet of the base records, and none records a greater |
| `RoundNames.KeepsResolvedMeans` | src/travel_agent/agents/utils.py:405-407 | The resolved key is kept exactly when it is not yet in use and is the base with a round suffix |
| `RoundNames.ScopedKeyIsNew` | src/travel_agent/agents/utils.py:394-416 | The key is not yet in use exactly when it was kept, the base has no at-sign, or the base's second round is free |
| `RoundNames.AtSignReusesKey` | src/travel_agent/agents/utils.py:407-416 | Once the second round of a base with an at-sign is in use, every further retry is handed that key |
| `Census.ScanMention` | scripts/corpus_place_census.py:397-415 | The country loop, with its break and its memo, finds what the specification finds |
| `Census.ScanChunk` | scripts/corpus_place_census.py:389-431 | The row of a chunk does not depend on what the memo already holds |
| `Census.RowTellsTheTruth` | scripts/corpus_place_census.py:392-420 | Each verdict of a row is that of a scan of all capped mentions in all countries, without early exits |
| `Census.EmptyMentionHidesScope` | scripts/corpus_place_census.py:414-415 | An empty mention in scope, first in the list, would hide everything in scope that is no stop |
| `Census.KeyIsInjective` | scripts/corpus_place_census.py:398 | Memo keys tell mentions and countries apart as long as no country has a bar in it |
| `Census.RunCensus` | scripts/corpus_place_census.py:383-438 | The main loop ends with the specified rows, and every flush, one at each tenth row and one at the end, holds a prefix of them and true answers |
| `Census.ResumeIsHarmless` | scripts/corpus_place_census.py:360-388 | Resuming from any prefix of the rows ends with the rows of an uninterrupted census |
| `Census.ReportIsExhaustive` | scripts/corpus_place_census.py:223-240 | The three reported counts, however often the census was interrupted, are those of an exhaustive scan of what it visited |

## Left out

- Rendering, effects and commit timing of the user interface; state and its ref change together.
- HTTP, database, cache servers and provider clients: their answers are arguments or script entries.
- UTF-8 decoding and the reader of the response body: the read loop starts from decoded chunks.
- SseFrames.StreamChat: the wait between attempts and the texts of errors; which refusals are transient is part of the script.
- Json.CanonicalTextIsEquality: a JSON number is the text printed for it, so numbers that print alike are one value.
- StreamLaws.UsageAddsUp: the cost total is an exact real, where the code adds floating-point numbers and may round.
- isPublicDeliveryBundle and the normalizers of loaded messages, gates and cards: a frame's bundle or a loaded session is given in normalized form.
- The preset storage write beside SET_ACTIVE_PRESET, and last-session storage.
- The monitor's ready and finalized sets, its failure counter and its delays: they pace polling and do not move the cursor.
- recoverDeliveryTerminal: its result is one more terminal frame offered to the handshake.
- BackgroundStream.BackgroundEqualsForeground: one stream, while it runs. The end of a stream, which gives up its handle, a second send that takes the handle over after a switch to a session that is not streaming, and a new chat begun by clearing the thread are not events of the model. The new-chat buttons abort the stream first; deleting the last session clears the thread without an abort (frontend/src/hooks/useSessionManager.ts:336), so the stream goes on with no thread of its own.
- ExecuteTool.CancellationReachesCallerIff: cancellation of the task itself (asyncio.CancelledError, which no handler here catches) is not an answer of the script.
- ExecuteTool.ExecuteTool: tool names, arguments and log lines are not in the envelope; after_call is taken to return, as it does for every audit store.
- The retryable-error words: whether an error is worth a retry is part of the script's provider answer.
- ReactLoop.StreamingReactLoop: the tool cache is folded into a call's answer, what ExecuteTool says of a call is not linked to that answer, stream-queue events and summaries are not modelled, and the texts of notices are reduced to what they claim.
- ReactLoop.AnswerCalls: the model-facing text of a tool result is its answer; Compaction models what becomes of it.
- compact_tool_content_for_model beyond _compact_sanitized_result: no size bound holds for its last branch.
- RoundNames.StripUndoesMake: a digit is an ASCII digit, where the regular expressions take any Unicode decimal digit.
- Census.RunCensus: resolver errors and retries, the shuffle, and the distance arithmetic behind a hit's scope; the proposer's mentions are never empty (src/travel_agent/rag/place_mentions.py:177-183), which the counts rely on.
- Sorting in resolve_agent_assignment is replaced by picking the first of the greatest rounds, which a stable descending sort puts first.
- Server-side mutation, undo and lease rules are not part of this model.
