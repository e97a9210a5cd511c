# Verified model of the AG-UI and scheduler launchers

This project models the part of the launchers that decides what clients and agents see:
the AG-UI event stream of one `/run_sse` request, the interrupt and resume protocol of a
thread, the conversion of stored history to messages, the client's copy of session state,
and the cron ticks of the scheduler. Everything is proved by Dafny; `dafny verify
dfyconfig.toml` checks the whole project.

## How the model is laid out

- `Values`, `Adk`, `Protocol`, `Launcher`: Go values, ADK events, AG-UI events, and the
  configuration with its calls into unseen code (JSON encoding, id generation, ADK's
  unwrapping of confirmation calls, the part converter).
- `Emission`, `Interceptors`: the emitter. Its ghost field `offered` lists every event passed
  to `emit`; `Send` says what interceptors and writer make of such a list, whatever
  interceptors rewrite, drop or abort.
- `StreamSpec` and `Stream`: the stream state. Every in-place method of `Stream` is proved
  equal to a function of `StreamSpec`, for any emitter, failing or not.
- `RunSpec` and `Run`: one request from the SSE commitment point on, in the same two forms.
- `Grammar`, `RunGrammar`: the AG-UI grammar as an automaton, what acceptance means for a
  trace, and that every run is accepted. `Simulation`, `Disconnects`: what a failing write
  changes. `Halting` and `Outcomes`: at which arrival a run ends and which interrupt it
  records, read off the agent's events alone.
- `Transcript`, `Requests`, `TurnEnds`: everything a client reads of a request, in order, and
  what the request stores, read off the request, the agent's events and the service alone.
- `Schema`, `Interrupts`, `Acceptance`, `Persistence`, `StoredForm`, `Resume`, `Threads`,
  `Answering`: response schemas, resume validation, stored records, conversion to ADK
  responses, whole threads, and which open interrupts can be answered at all.
- `Sessions`, `Pointer`, `Replica`: the session service, JSON Pointer escaping, and the
  client's document.
- `Sequences`, `Convert`, `MessageIds`, `Projections`, `ConvertLaws`, `HistoryContents`,
  `Agreement`, `Reasoning`, `Voices`, `Turns`, `TurnReadings`, `TurnAgreement`, `TurnVoices`:
  history conversion, streamed thoughts and texts, and when stream and history agree.
- `AdkRun`, `Cron`, `Ticks`, `CronHistory`: the runner's contract, one tick, and histories of
  ticks.

Choices that decide what the statements mean:

- A Go string is a byte sequence; each `char` stands for one byte. Numbers are exact reals
  and integers: float rounding, NaN and infinities are not modelled.
- A call to unseen code is a function parameter, so results hold for every such function.
  Message ids are assumed non-empty and pairwise distinct (`FreshIds`) where needed.
- The grammar is stated on the events offered to the emitter, before `OnEmit`, and for a
  part converter that returns only activity and custom events (`NeutralConverter`). The
  wire is then derived: with interceptors that pass events on or fail, exactly the offered
  events up to the first failure.
- The agent run is arbitrary: a start error or a list of arrivals, each with the session
  contents the service holds at that moment. A Go map that is ranged over is an entry list
  in some order, or a set emptied by arbitrary choice.
- The session service may fail on any call, given by a function from call numbers. It keeps
  a session per user and thread id. The agent's runner stores only in the session it was
  started with.
- Thread results are about histories of requests of any users on any threads, one at a time.
  For the requests on the thread in question they assume a reliable service, and that
  neither client nor agent writes the launcher's own state key; the other requests, and all
  client disconnects, are arbitrary. `StartsIff` drops the reliable service at the request
  in question.
- A resume's payload is decoded JSON where that matters (`VerdictSurvivesStorage`).
- Cron ticks are sequential; an asynchronous tick is run to its end before the next.

Where the code and its comments differ, the model follows the code:

- `scheduler/execute.go:116` says the initial prompt runs once. It runs at every tick until
  one completes its main run and stores the result (`InitialPromptRunsUntilStored`); a
  given cron runs it again after it completed (`InitialPromptRunsTwice`).
- `agui/convert.go:272-275` calls message ids unique. They are exactly when no event id
  reads as another event's numbered id (`IdsAreUniqueIff`); an event "e" with two messages
  and an event "e-1" collide (`IdsCanClash`).
- `agui/interrupt_state.go:167-169` announces shape checks for a resume without stored
  state; the code rejects every such resume.
- `agui/stream.go:365-366` emits the snapshot so that clients resume from persisted state;
  it lays the request's state over newer session state (`BoundaryIsFresh`,
  `BoundaryCanBeStale`).
- `agui/interrupt_state.go:250-254` speaks of required keys in general; below the top level
  they are not checked (`NestedRequiredIsIgnored`), and that is the only difference on a
  property (`ExactUpToRequired`). The schema this launcher stores requires nothing below its
  top level and never meets the difference (`ConfirmationIsExact`).
- `agui/convert.go:34-36` has one converter serve live streaming and history unchanged. The
  live stream calls it for partial events too, which history skips, so the activities agree
  exactly when it makes none of those. The thoughts agree exactly when no turn starts a
  thought in a reasoning phase that an earlier turn left open (`StreamAgreesWithHistory`,
  `OpenPhaseLosesThought`).

Consequences of the code that its comments do not mention:

- An interrupt whose confirmation call has an empty id can never be answered, and nothing
  else clears it: its thread never starts the agent again (`EmptyIdBlocks`). One request of
  an agent is enough to get there (`EmptyIdCanOpen`).
- A confirmation call ends the run (`agui/stream.go:214-219`), so of several such calls only
  the first ever becomes an interrupt (`SurfacedIff`, `SecondCallIsLost`).
- A text message stays open over the turns that do not close it: the texts of two turns
  become one message (`OpenMessageSpansTurns`) unless the first completes its turn or ends in
  a call, or the second thinks first (`TurnsAreMessages` says exactly when).
- Once an event has been translated, a failed write can go unreported only in what the run
  ends with: its closing events, or the part that ends it. Before that it is reported, and
  nothing that the agent asks for afterwards is recorded (`UnnoticedIsWritten`).
- A failing first lookup counts as nothing pending, so that the agent can start over an open
  interrupt; `StartsIff` says exactly when.

## Model

| member | source | states |
|---|---|---|
| `Emission.Emitter.Emit` | agui/stream.go:51-67 | one emit call: interceptors in order, first drop or abort wins, nothing after the first failure; the wire is the one `Send` gives for all events offered so far |
| `Emission.FailureAbsorbs` | agui/stream.go:49-54 | after the first failure no emitted event changes the wire |
| `Emission.FaithfulCut` | agui/stream.go:51-67 | with interceptors that pass every event on or fail, the wire is the offered sequence cut exactly before the first event whose interceptor fails or whose write is refused |
| `Interceptors.HooksAreAChain` | agui/stream.go:55-65 | each interceptor gets what the one before it passed on; the first drop or abort decides, otherwise the last event passed on is the outcome |
| `Interceptors.WireIs` | agui/stream.go:51-67 | for any interceptors and writer: the wire is, in order, what the chain passes on of each event, rewritten as it rewrites it and without what it drops, up to the first abort or refused write |
| `Stream.StreamState.CloseTextMessage` | agui/stream.go:294-301 | the exact new state and event of closing a text message |
| `Stream.StreamState.CloseReasoningMessage` | agui/stream.go:305-315 | the exact new state and events of closing message and phase, with the emitted length reset |
| `Stream.StreamState.FinalizeLifecycle` | agui/stream.go:283-290 | text, reasoning and step are closed, in this order, each only if open |
| `Stream.StreamState.ChangeAuthor` | agui/stream.go:102-114 | the step change for an event's author, the root agent having no step |
| `Stream.StreamState.ProcessThought` | agui/stream.go:148-171 | only the part of an accumulated thought beyond the emitted length is sent, in an open phase and message |
| `Stream.StreamState.ProcessText` | agui/stream.go:174-191 | text closes reasoning; only partial text is streamed |
| `Stream.StreamState.EmitToolCall` | agui/stream.go:221-237 | start, arguments and end together; a failed encoding leaves only the start |
| `Stream.StreamState.EmitBoundarySnapshots` | agui/stream.go:365-378 | the state and message snapshots before an interrupt, from one session lookup |
| `Stream.StreamState.EmitInterrupt` | agui/stream.go:327-404 | the proposal, the snapshots and the interrupt outcome, or the error before it |
| `Stream.StreamState.ProcessPart` | agui/stream.go:121-250 | one part: converter first, then thought, text, call or response |
| `Stream.StreamState.EmitStateDelta` | agui/stream.go:259-269 | one add operation per changed key, in iteration order |
| `Stream.StreamState.ProcessEvent` | agui/stream.go:101-277 | a whole event, parts stopping at the first failure, and the status it returns |
| `Run.SendError` | agui/agui.go:576-588 | closes everything and sends RunError unless a terminal event was sent |
| `Run.LoadPendingInterrupts` | agui/interrupt_state.go:92-106 | stored records, none when the session cannot be loaded, an error only if they do not decode |
| `Run.WritePendingInterrupts` | agui/interrupt_state.go:139-165 | the records become a state delta on the session; an unconfigured service is no error |
| `Run.StreamEvents` | agui/agui.go:668-694 | the event loop, with the errors that end it |
| `Run.ConcludeRun` | agui/agui.go:696-724 | closing, at most one RunFinished, then persist, clear or neither |
| `Run.AdmitRequest` | agui/agui.go:596-622 | load, validate, prepare the session, each failure a RunError |
| `Run.LaunchRun` | agui/agui.go:624-724 | the run-start snapshot, the turn, the start of the agent and its stream |
| `Run.RunSse` | agui/agui.go:579-725 | the whole request from RunStarted on, for any emitter and session service |
| `Grammar.CompleteTraceShape` | agui/agui.go:696-707 | an accepted complete trace starts with its only RunStarted and ends with its only terminal event |
| `Grammar.TextContentIsBracketed` | agui/stream.go:92-93 | a text delta lies inside its own message's bracket, with no reasoning, tool call or other message inside |
| `Grammar.ReasoningContentIsBracketed` | agui/stream.go:145-171 | a reasoning delta lies inside its own message's bracket, and that inside a phase, with no text or tool call inside either |
| `Grammar.StartedEnds` | agui/stream.go:279-315 | in a complete trace every text message, reasoning phase and reasoning message that starts also ends |
| `Grammar.StartedStepFinishes` | agui/stream.go:94-114 | the next step event after a start is the matching finish |
| `Grammar.ToolCallIsAtomic` | agui/stream.go:96-99 | in a complete trace every tool call start is followed at once by its own arguments and end; only a run that ends in error inside a call lacks them, within two events |
| `Grammar.ToolCallEventsBelong` | agui/stream.go:219-237 | no stray tool call arguments or ends |
| `Grammar.OpenedIdsAreDistinct` | agui/stream.go:141-143 | no message id is opened twice |
| `RunGrammar.OnePartTracks` | agui/stream.go:117-251 | every part keeps the trace in the grammar, the state naming exactly what is open, phase open iff message open iff reasoning emitted |
| `RunGrammar.EventTracks` | agui/stream.go:101-277 | the same for a whole event and each way it can end |
| `RunGrammar.TurnEndCloses` | agui/stream.go:271-274 | after any event that completes its turn no text message, reasoning phase or message, step or tool call is open |
| `TurnEnds.RunClosesTurns` | agui/stream.go:271-290 | the same in the stream of every run, at the point where that event has been shown and nothing after it |
| `Transcript.StepClosesLast` | agui/stream.go:283-290 | a completed turn closes its step after everything else |
| `RunGrammar.LoopTracks` | agui/agui.go:668-694 | the same for any list of arrivals |
| `RunGrammar.RunIsInGrammar` | agui/agui.go:579-707 | every request's stream is complete and in the grammar; its terminal event says how it ended, under the ids of RunStarted; only a failed argument encoding ends it inside a tool call |
| `Simulation.EventSimulates` | agui/stream.go:117-120 | a failure anywhere inside an event leaves the wire that the failure-free event would leave on this net |
| `Simulation.FailureOnlyCuts` | agui/stream.go:51-67 | the wire of any run is what the emitter makes of the failure-free event sequence; without failure the runs are equal |
| `Simulation.WireIsPrefixOfCompleteStream` | agui/agui.go:579-707 | if event k is the first whose write or interceptor fails, exactly the k events before it arrive, a prefix of a complete stream |
| `Disconnects.SameOrNoticed` | agui/agui.go:579-724 | with any failing write or interceptor a request offers, stores, starts and returns what it would for a client that stays, or it returns a write error and something did fail |
| `Disconnects.UnnoticedIsWritten` | agui/stream.go:117-120 | without a write error, everything shown before the part that ends the run, or before its end, has been written; so an interrupt is recorded only if all shown before its call was written |
| `Transcript.EventShows` | agui/stream.go:101-277 | what one event lets a client read, in order and in its author's step, and how it leaves the run: deltas, calls with arguments, results with texts, the converter's events, the state delta, or the part that ends the run and why |
| `Requests.RequestReads` | agui/agui.go:590-707 | everything a client reads of a request that starts the agent, in order and step by step, as a function of the request, the stored session and the agent's events: state snapshot, contents of every event, and the end: success, the agent's error with message and code, a part's fault, or the proposed call, the snapshots of state and of the stored history, and the question with its hint, tool call id and metadata |
| `Requests.RefusalReads` | agui/agui.go:596-654 | when a request is refused and why, read off the request and the service; its client reads the start, the snapshot only if the session was prepared, and that error; nothing is stored but a session created with the given state |
| `Requests.StartsUnlessRefused` | agui/agui.go:590-661 | every other request starts the agent, with the message or the resume's answers and with exactly the state it gave |
| `Requests.StartDocument` | agui/agui.go:609-624 | after the run-start snapshot the client holds, on every key not prefixed `_agui_`, the given value or else the stored one |
| `Requests.StartErrorLeaves` | agui/snapshot.go:39-57 | a session that was not there is created with the given state |
| `Requests.GoneClientChangesNothing` | agui/agui.go:590-594 | a client gone before RunStarted: no lookup, no session, no agent |
| `Requests.PersistIs` | agui/interrupt_state.go:139-165 | storing succeeds exactly when lookup and append do and the session is there; it keeps the rest of the state and adds one event to the history |
| `Requests.RequestStores` | agui/agui.go:668-723 | the session a request leaves: as the runner stored it at the ending arrival, with the records of the question or the clear exactly if the run asked or was drained and both calls work; no error exactly then |
| `Outcomes.OnePartKeeps` | agui/stream.go:380-402 | a part records an interrupt only if it is a confirmation call that unwraps and encodes: the interrupt under that very call's id |
| `Outcomes.RunKeepsIds` | agui/agui.go:668-724 | whatever fails, a request keeps its ids and records nothing or the interrupt of the confirmation call at which its agent's run ends |
| `Outcomes.LoopEnds` | agui/agui.go:668-694 | with a healthy client the loop ends at the first arrival that reports an error, cannot be encoded or asks for confirmation, and interrupts exactly in the last case |
| `Outcomes.StartedIsLaunched` | agui/agui.go:590-666 | exactly when a request starts the agent, whatever writes and service calls fail |
| `Outcomes.RequestEnds` | agui/agui.go:650-724 | a request that starts the agent interrupts exactly when the first ending arrival asks for confirmation, with that call's interrupt, and returns no error exactly when it is interrupted or drained and the result is stored |
| `Schema.StringSliceFromSchema` | agui/interrupt_state.go:295-310 | the names of `required` from either Go slice |
| `Schema.ValidatePayloadAgainstSchema` | agui/interrupt_state.go:255-283 | accepts exactly the payloads with all required names and conforming properties |
| `Schema.ValidateProperties` | agui/interrupt_state.go:269-281 | the property loop decides conformance in whatever order the map is ranged over |
| `Schema.ValidateJsonSchemaValue` | agui/interrupt_state.go:286-291 | the recursive check decides the declarative predicate `Conforms` and terminates on schema depth |
| `Schema.ValidateJsonSchemaType` | agui/interrupt_state.go:313-369 | the type names, the whole-number test and the nested properties |
| `Schema.ValidateJsonSchemaEnum` | agui/interrupt_state.go:372-387 | membership in an enum list; an enum that is no list admits all |
| `Schema.NeverRejectsValidPayload` | agui/interrupt_state.go:250-283 | a payload accepted by type, enum, required and properties of JSON Schema 2020-12 is never rejected |
| `Schema.ExactUpToRequired` | agui/interrupt_state.go:286-387 | on a property within the check's dialect the standard accepts exactly what the check accepts and what has every nested required name |
| `Schema.PayloadExactUpToRequired` | agui/interrupt_state.go:255-283 | on a whole payload the standard asks only for nested required names and the schema's own type and enum besides |
| `Interrupts.ConfirmationIsExact` | agui/interrupt_state.go:31-46 | on the schema this launcher stores the check and the standard agree both ways |
| `Schema.NestedRequiredIsIgnored` | agui/interrupt_state.go:348-367 | a payload the standard rejects for a nested required name is accepted |
| `Interrupts.IndexPending` | agui/interrupt_state.go:181-184 | the last record under each id |
| `Interrupts.ValidateResumeAgainstPending` | agui/interrupt_state.go:180-235 | accepts exactly when `Accepted` holds; otherwise reports the first faulty entry and why, or, when no entry is faulty, a pending id that none answers |
| `Interrupts.CheckEntry` | agui/interrupt_state.go:191-219 | the checks on one entry, in order |
| `Interrupts.EarlierStillAccepted` | agui/interrupt_state.go:204-206 | an accepted resume would be accepted at any earlier time |
| `Interrupts.EntryOrderIrrelevant` | agui/interrupt_state.go:190-226 | permuting the entries does not change the verdict |
| `Interrupts.PendingOrderIrrelevant` | agui/interrupt_state.go:181-184 | with distinct ids, permuting the pending records does not change the verdict |
| `Acceptance.AcceptedIff` | agui/interrupt_state.go:180-244 | acceptance spelled out: distinct ids, every pending one named, each entry settling the last record under its id, not lapsed, cancelled with nothing or resolved with a conforming object |
| `Acceptance.FaultSaysWhy` | agui/interrupt_state.go:190-219 | what each reason for rejecting an entry means |
| `Acceptance.ConfirmationAllows` | agui/interrupt_state.go:31-46 | the stored schema allows exactly a boolean `approved` and, if present, an object under `editedArgs` |
| `Acceptance.TypesAdmit` | agui/interrupt_state.go:313-347 | which Go and JSON values each type name admits |
| `Persistence.StoredFormsDecode` | agui/interrupt_state.go:110-135 | records read back from the typed slice, from JSON and after a clear |
| `StoredForm.RecordJson` | agui/interrupt_state.go:24-29 | the field names of a stored record, and which are omitted when empty |
| `StoredForm.StoredDecodes` | agui/interrupt_state.go:110-135 | exactly which stored values decode and to which records; anything else is corrupt |
| `Persistence.EnumSurvivesIff` | agui/interrupt_state.go:372-387 | an enum admits the same decoded JSON values before and after storage as JSON exactly when, if it is a list then, it was one before and each member's JSON form was a member |
| `Persistence.SchemaVerdictSurvives` | agui/interrupt_state.go:293-310 | a schema whose enums survive gives a decoded payload the same verdict before and after JSON, whatever Go values its other keywords hold |
| `Persistence.VerdictSurvivesStorage` | agui/interrupt_state.go:110-135 | so does a whole resume, at any time |
| `Persistence.LauncherRecordsSurvive` | agui/interrupt_state.go:31-61 | the records this launcher writes come back unchanged |
| `Persistence.StringSliceEnumChangesVerdict` | agui/interrupt_state.go:372-387 | the verdict does change for a string slice under enum |
| `Resume.ConfirmationResponseFromResumeEntry` | agui/resume.go:59-97 | the response map of one entry, or an error |
| `Resume.WithoutApproved` | agui/resume.go:81-87 | all payload fields but approved |
| `Resume.ResumeEntriesToConfirmationContent` | agui/resume.go:25-52 | succeeds exactly on convertible entries, one part per entry in order |
| `Resume.ResumeDelivers` | agui/resume.go:25-97 | a resume converts exactly when no entry lacks an id or a yes or no; entry by entry the part has its id and ADK's name, `confirmed` false if cancelled and `approved` if resolved, and as payload `editedArgs`, else the other fields, else none |
| `Resume.SoundAnswerConverts` | agui/resume.go:60-92 | a conforming answer converts: confirmed is approved, payload is editedArgs or the other fields |
| `Resume.ValidatedImpliesConvertible` | agui/resume.go:19-52 | an accepted non-empty resume always converts, each part with its own entry's answer, its part ids being the pending ids, each once |
| `Threads.ServeStarts` | agui/agui.go:590-666 | exactly when one request starts the agent and as what, with no trust in the service |
| `Threads.ServeSettles` | agui/agui.go:709-723 | what one request leaves pending, whatever writes fail |
| `Threads.ServeElsewhere` | agui/interrupt_state.go:65-78 | a request leaves the sessions of other users and other threads alone, whatever fails |
| `Threads.PendingIsOpen` | agui/interrupt_state.go:155-165 | after any history of any users and threads the stored records of a thread are exactly its open interrupts |
| `Threads.OpenWasAsked` | agui/stream.go:380-402 | whatever is open on a thread stands for the confirmation call at which the agent of an earlier request there ended its run |
| `Threads.ThreadIsSafe` | agui/agui.go:596-723 | in any history of any users and threads the agent starts exactly when the client is there and either nothing is open and a message is given, or exactly the open interrupts are answered; then each response carries its entry's answer and names a confirmation call that the agent made earlier on the thread; pending afterwards is what was emitted, nothing, or unchanged |
| `Threads.MayStartOver` | agui/interrupt_state.go:186-226 | what may start the agent over an open interrupt: a single entry that says yes or no to it, spelled out on the payload |
| `Threads.StartsIff` | agui/interrupt_state.go:83-97 | the same start condition when the service may fail at this request: a failing first lookup counts as nothing pending, and only then can the agent start over an open interrupt |
| `Answering.CanGoOnIff` | agui/interrupt_state.go:190-226 | after any history some resume is accepted exactly when no open interrupt has an empty id |
| `Answering.CancellingStarts` | agui/resume.go:60-63 | cancelling everything that is open gets the agent started |
| `Answering.EmptyIdBlocks` | agui/interrupt_state.go:192-194 | an open interrupt with an empty id stays open over any further history, and none of its requests on the thread starts the agent |
| `Answering.EmptyIdCanOpen` | agui/stream.go:380-402 | one request whose agent asks under an empty call id leaves such an interrupt |
| `Answering.SurfacedIff` | agui/stream.go:214-219 | a client gets at most the first of an agent's confirmation calls; it gets all of them exactly when there is none or a single one that the run reaches |
| `Answering.SecondCallIsLost` | agui/stream.go:214-219 | two confirmation calls in one event, of which the second is never shown |
| `Sessions.BuildStateSnapshot` | agui/snapshot.go:61-79 | visible stored state overridden by visible request state |
| `Sessions.CopyVisible` | agui/snapshot.go:64-74 | one of its loops, in any order of keys |
| `Sessions.SessionService.GetSession` | agui/interrupt_state.go:65-78 | a lookup: no call when unconfigured, no session on a fault |
| `Sessions.SessionService.EnsureSessionForSnapshot` | agui/snapshot.go:39-57 | an existing session, a new one, or an error only from creation |
| `Pointer.EscapeIsOnePass` | agui/stream.go:408-412 | the two passes equal one pass per character |
| `Pointer.EscapeIsLegal` | agui/stream.go:406-412 | no slash, and every tilde is followed by 0 or 1 |
| `Pointer.UnescapeEscape` | agui/stream.go:406-412 | decoding as in section 4 of RFC 6901 gives the key back |
| `Pointer.EscapeIsInjective` | agui/stream.go:408-412 | distinct keys get distinct tokens |
| `Pointer.PassOrderMatters` | agui/stream.go:406-411 | the passes in the other order garble a slash |
| `Replica.OpSetsKey` | agui/stream.go:254-266 | the operation for a key sets exactly that key of the client's document |
| `Replica.OpsOverride` | agui/stream.go:259-268 | a state delta overrides the client's document by the changed keys |
| `Replica.DeltaOrderIrrelevant` | agui/stream.go:261-267 | the iteration order of the delta map does not matter |
| `Replica.EventMirrors` | agui/stream.go:254-276 | a processed event applies its delta, a stopped one nothing |
| `Replica.ReplicaAgrees` | agui/agui.go:619-694 | on every visible key the client holds session state overridden by the request's state and then the deltas, in order, of the arrivals before the first that ends the run, all of them on success; after an interrupt it ends with the boundary snapshot of the session found then |
| `Replica.EventCrosses` | agui/stream.go:361-369 | an event that interrupts leaves the document as it was until its proposal, and then replaces it by the boundary snapshot unless that is empty |
| `Replica.BoundaryIsFresh` | agui/snapshot.go:70-74 | that snapshot shows stored state exactly when no key of the request's state has another value there |
| `Replica.BoundaryCanBeStale` | agui/snapshot.go:70-74 | a changed key is shown with the request's old value |
| `Convert.FoldEventsToMessages` | agui/convert.go:233-259 | the messages of a converter's events, numbered from the start index |
| `Convert.ConvertEventLoop` | agui/convert.go:102-225 | the part loop and the final flush |
| `Convert.ConvertSessionToMessages` | agui/convert.go:62-98 | converts the non-partial ones among the first `limit` eligible events, or fails |
| `MessageIds.SameIdWhen` | agui/convert.go:276-281 | exactly when two message ids coincide |
| `MessageIds.NumberReadsBack` | agui/convert.go:276-281 | the number in an id is decimal without leading zero and reads back as itself |
| `MessageIds.EventNumbered` | agui/convert.go:115-222 | the i-th message of an event has id number i, converter output included |
| `MessageIds.CountFromParts` | agui/convert.go:102-225 | how many messages an event gives, counted from its parts without converting it |
| `MessageIds.IdsAreUniqueIff` | agui/convert.go:272-281 | over a session with distinct event ids, message ids are unique exactly when no event id reads as a numbered id of another, which the events alone decide |
| `MessageIds.IdsCanClash` | agui/convert.go:272-281 | two events with distinct ids whose messages share an id |
| `MessageIds.EqualLengthsSuffice` | agui/convert.go:276-281 | event ids of one length never clash |
| `ConvertLaws.EventConserves` | agui/convert.go:102-225 | with any converter that opens nothing, an event's messages carry exactly the texts, thoughts, calls and responses of the parts left to the launcher and the activities of the others, in part order; calls in one message after the text up to the last call, thoughts in one message at the end; text and calls under role user exactly when the content's role is "user", else assistant |
| `ConvertLaws.AllConserve` | agui/convert.go:71-95 | the same over all converted events |
| `HistoryContents.EventTells` | agui/convert.go:102-225 | an event converts exactly when no part fails; its messages then hold its text under its role, its calls with arguments and its results with texts, a nil map as `{}` |
| `HistoryContents.HistoryTells` | agui/convert.go:62-98 | which stored events are converted, counted and filtered as the code does; who said what, which calls and results, over the whole history; when the conversion fails |
| `HistoryContents.FoldedKeeps` | agui/convert.go:233-259 | of any converter's events the activities and text deltas become messages, the deltas as the assistant's |
| `ConvertLaws.ConversionIsHomomorphism` | agui/convert.go:71-95 | without a limit, histories joined convert to messages joined |
| `ConvertLaws.PartialEventsAreIgnored` | agui/convert.go:83-88 | without a limit, partial events make no difference |
| `ConvertLaws.LimitCutsAPrefix` | agui/convert.go:78-81 | a smaller limit gives a prefix of the result |
| `ConvertLaws.TimeFilterCutsASuffix` | agui/convert.go:75-77 | with ascending timestamps a time filter gives a suffix |
| `Agreement.AnyPartHeard` | agui/stream.go:121-250 | what one part, the converter's included, adds to what a client reads |
| `Reasoning.ReasoningOfRun` | agui/stream.go:145-171 | for every run, interrupted, failed or complete, with any converter that opens nothing: phase by phase, the deltas under one message concatenate to the longest accumulated thought |
| `Turns.TurnHeard` | agui/stream.go:148-190 | a model turn without a thought, or from a closed phase, adds exactly its whole thought as a message |
| `Turns.TurnsCounted` | agui/stream.go:148-190 | a client never has more reasoning messages than turns thought, and as many exactly when every turn with a thought found the phase closed |
| `Voices.TextsReconstruct` | agui/stream.go:148-191 | the client's text messages are exactly those that the partial texts make up, message by message |
| `TurnVoices.TurnSpoken` | agui/stream.go:148-191 | the text of a turn joins the open message, or is one of its own if none is open or the turn thinks; when a message is open afterwards |
| `TurnVoices.TurnsSpoken` | agui/stream.go:174-274 | never more text messages than turns that speak, as many exactly when each finds the last message closed or thinks first |
| `TurnVoices.TurnsAreMessages` | agui/stream.go:174-274 | each turn's text is a message of its own, exactly under that condition |
| `TurnVoices.ClosedTurnsSpeakAlone` | agui/stream.go:271-274 | which holds when every turn that speaks completes its turn or ends in a call |
| `TurnVoices.RunTurnsAreMessages` | agui/agui.go:579-707 | the same for the whole stream of a request that starts the agent |
| `TurnVoices.OpenMessageSpansTurns` | agui/stream.go:183-190 | two turns whose texts become one message |
| `TurnReadings.CardsCounted` | agui/convert.go:83-88 | the stream shows at least the activities of history, and the same exactly when partial events have none |
| `TurnAgreement.StreamAgreesWithHistory` | agui/convert.go:27-98 | for any sequence of model turns, tool results and state changes, with any converter that opens nothing, text, calls and response ids of stream and history always agree; thoughts and activities agree exactly when no turn starts a thought in an open phase and no partial event has an activity |
| `TurnAgreement.OpenPhaseLosesThought` | agui/stream.go:148-157 | two turns on which they disagree: the second thought is stored and never streamed |
| `TurnAgreement.ArgumentsAgreeIff` | agui/convert.go:284-293 | the argument texts of a call agree exactly unless they are nil |
| `TurnAgreement.RunAgreesWithHistory` | agui/agui.go:579-707 | the same, under the same exact condition, for the whole stream of a request that starts the agent |
| `AdkRun.RunUserMessage` | internal/adkrun/runtime.go:171-189 | the checks in order, then the first failing event or the session id |
| `AdkRun.RunKeepsSession` | internal/adkrun/runtime.go:118-125 | a completed run returns the given id, or a new non-empty one without hyphens |
| `Ticks.RunSucceedsIff` | internal/adkrun/runtime.go:171-189 | a run succeeds exactly when prompt and user are given, agent and runner come up and no event fails; else which check failed, or the first failing event |
| `Cron.CronJob.UpdateCron` | scheduler/execute.go:157-163 | only the masked fields change, and none if storing fails |
| `Cron.CronJob.ExecuteCron` | scheduler/execute.go:93-165 | the runs made, the fields stored, the error returned and what the observer is told |
| `Cron.CronJob.HandleTick` | scheduler/execute.go:29-81 | the whole handler and its status |
| `Ticks.OwnerIff` | scheduler/cron.go:73-80 | an owner is usable exactly when it is "users/" and a non-blank id with white space around it, and gives that id |
| `Ticks.TickRuns` | scheduler/execute.go:29-131 | a tick runs exactly when it names a cron that is found, not archived, owned and has a prompt; then the prompt runs once as its owner, after the initial prompt of a recurring cron without a context id, unless that fails; else 200 exactly when it is the archived state that stops it, and 500 otherwise |
| `CronHistory.TickWrites` | scheduler/execute.go:133-163 | a tick writes only run time, context id and archival, and only after a completed and stored main run |
| `CronHistory.TickSessions` | scheduler/execute.go:114-131 | a stored context id is used and never seeded again; a seeding tick's main run uses the seeded session; a new context id is the session the main run returned |
| `CronHistory.TickReports` | scheduler/execute.go:149-164 | no 500 after a completed main run; the observer's error is nil exactly when run and store succeeded and names the failed run or store otherwise; start and finish pair up |
| `CronHistory.ContextIsWriteOnce` | scheduler/execute.go:114-142 | over any history a stored context id never changes and every later run uses it |
| `CronHistory.OneShotRunsOnce` | scheduler/execute.go:143-156 | a one-shot cron's completed runs are its failed stores plus one once archived |
| `CronHistory.ArchivedRunsNothing` | scheduler/execute.go:49-52 | an archived cron runs nothing and is not written |
| `CronHistory.InitialPromptRunsUntilStored` | scheduler/execute.go:116-124 | the initial prompt runs at a tick exactly when no earlier tick completed and stored |
| `CronHistory.InitialPromptCanRunTwice` | scheduler/execute.go:116-130 | a completed seed followed by a failed main run is repeated |
| `CronHistory.InitialPromptRunsTwice` | scheduler/execute.go:116-130 | a cron and two ticks at which its initial prompt runs |
| `CronHistory.OwnerIsUsersPath` | scheduler/cron.go:73-80 | an accepted owner is "users/" and a non-blank id, white space around it ignored |

## Left out

- HTTP decoding, SSE bytes, CORS, headers, flags, routes, gRPC metadata, telemetry and logging.
- The Before and After hooks of interceptors and thread metadata: they run outside the stream.
- `web/`, `lro/`, `scheduler/launcher.go`, `agui/capabilities.go`, `agui/threads.go`: wiring and thin handlers.
- `extractLastUserMessage` and multimodal input: the latest user turn is an input of the model.
- Error texts: a run error carries the kind of fault; only an agent's own message and code are kept.
- The hint text of a confirmation and ADK's unwrapping of it: functions given by the configuration.
- JSON text, base64 and timestamp syntax: encoding is a partial function, parsing an optional integer.
- Case-insensitive field names when decoding stored records, and precision loss of large integers in JSON.
- White space other than ASCII in `strings.TrimSpace`.
- JSON Patch operations below the top level of a document: the launcher never makes one.
- Concurrent requests on one thread and concurrent cron ticks: the code takes no lock across them.
- The e-mail address used for impersonation in cron runs and the system identity.
- `TurnAgreement.StreamAgreesWithHistory`: compares calls by id and name and responses by id; argument and result texts are in `RequestReads` and `HistoryTells`, and a nil map is the one case where they differ (`ArgumentsAgreeIff`).
- `RunGrammar.RunIsInGrammar`: says nothing about part converters that return lifecycle events, which may break any bracket.
- State keys that ADK shares between sessions (`app:`, `user:`): a session's state is its own.
- `Persistence.VerdictSurvivesStorage`: needs enums that survive JSON, which holds for every schema this launcher stores; a string slice under enum is no value it stores.
