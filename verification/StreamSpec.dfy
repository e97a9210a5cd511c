/** What processing one ADK event does to the stream state and which AG-UI events it
    offers to the emitter (agui/stream.go), as functions of the run so far. */
module StreamSpec {
  import opened Values
  import opened Adk
  import opened Protocol
  import opened Launcher
  import opened Emission
  import opened Sessions
  import opened Convert
  import opened Interrupts
  import Pointer

  datatype RunInfo = RunInfo(runId: string, threadId: string, userId: string, reqState: Fields)

  function KeyOf(run: RunInfo): SessionKey {
    SessionKey(run.userId, run.threadId)
  }

  /** The fields of `streamState`; "" marks what is not open. `nextId` counts generated ids. */
  datatype St = St(
    run: RunInfo,
    text: string,
    phase: string,
    thought: string,
    lastText: string,
    step: string,
    emittedLen: nat,
    finalized: bool,
    interrupts: seq<Interrupt>,
    nextId: nat)

  /** The run so far: the stream state and every event offered to the emitter. */
  datatype Sys = Sys(st: St, offered: seq<AgEvent>)

  /** How a part or an event leaves the run: going on, stopped by a fault, or interrupted. */
  datatype Status = Continue | Stop(fault: RunFault) | Done

  function Initial(run: RunInfo): St {
    St(run, "", "", "", "", "", 0, false, [], 0)
  }

  function Offer(sys: Sys, ev: AgEvent): Sys {
    Sys(sys.st, sys.offered + [ev])
  }

  function OfferAll(sys: Sys, evs: seq<AgEvent>): Sys {
    Sys(sys.st, sys.offered + evs)
  }

  function CloseText(sys: Sys): Sys {
    if sys.st.text == "" then sys
    else Offer(sys, TextEnd(sys.st.text)).(st := sys.st.(lastText := sys.st.text, text := ""))
  }

  function CloseThought(sys: Sys): Sys {
    if sys.st.thought == "" then sys
    else Offer(sys, ReasoningMessageEnd(sys.st.thought)).(st := sys.st.(thought := ""))
  }

  function ClosePhase(sys: Sys): Sys {
    if sys.st.phase == "" then sys
    else Offer(sys, ReasoningEnd(sys.st.phase)).(st := sys.st.(phase := ""))
  }

  function CloseReasoning(sys: Sys): Sys {
    var s := ClosePhase(CloseThought(sys));
    s.(st := s.st.(emittedLen := 0))
  }

  function CloseStep(sys: Sys): Sys {
    if sys.st.step == "" then sys
    else Offer(sys, StepFinished(sys.st.step)).(st := sys.st.(step := ""))
  }

  function Finalize(sys: Sys): Sys {
    CloseStep(CloseReasoning(CloseText(sys)))
  }

  function ChangeStep(appName: string, author: string, sys: Sys): Sys {
    if author == "" || author == sys.st.step then sys
    else
      var closed := CloseStep(sys);
      if author == appName then closed
      else Offer(closed, StepStarted(author)).(st := closed.st.(step := author))
  }

  function OpenPhase(cfg: Config, sys: Sys): Sys {
    if sys.st.phase != "" then sys
    else
      var id := cfg.freshId(sys.st.nextId);
      Offer(sys, ReasoningStart(id)).(st := sys.st.(phase := id, nextId := sys.st.nextId + 1))
  }

  function OpenThought(cfg: Config, sys: Sys): Sys {
    if sys.st.thought != "" then sys
    else
      var id := cfg.freshId(sys.st.nextId);
      Offer(sys, ReasoningMessageStart(id)).(st := sys.st.(thought := id, nextId := sys.st.nextId + 1))
  }

  function OpenText(cfg: Config, sys: Sys): Sys {
    if sys.st.text != "" then sys
    else
      var id := cfg.freshId(sys.st.nextId);
      Offer(sys, TextStart(id)).(st := sys.st.(text := id, nextId := sys.st.nextId + 1))
  }

  /** An accumulated partial thought: only what goes beyond the length already emitted. */
  function Thought(cfg: Config, text: string, sys: Sys): Sys {
    if |text| <= sys.st.emittedLen then sys
    else
      var closed := CloseText(sys.(st := sys.st.(emittedLen := |text|)));
      var open := OpenThought(cfg, OpenPhase(cfg, closed));
      Offer(open, ReasoningContent(open.st.thought, text[sys.st.emittedLen..]))
  }

  function Text(cfg: Config, partial: bool, text: string, sys: Sys): Sys {
    var closed := CloseReasoning(sys);
    if !partial then closed
    else
      var open := OpenText(cfg, closed);
      Offer(open, TextContent(open.st.text, text))
  }

  function ParentOf(st: St): Option<string> {
    if st.lastText == "" then None else Some(st.lastText)
  }

  /** Start, arguments and end at once; arguments that cannot be encoded leave the call open. */
  function Call(cfg: Config, call: FunctionCall, sys: Sys): (Sys, Status) {
    var started := Offer(sys, ToolCallStart(call.id, call.name, ParentOf(sys.st)));
    var args := cfg.marshal(call.args);
    if args.None? then (started, Stop(ArgsMarshal))
    else (Offer(Offer(started, ToolCallArgs(call.id, args.value)), ToolCallEnd(call.id)), Continue)
  }

  function OfferState(state: Fields, sys: Sys): Sys {
    if state == map[] then sys else Offer(sys, StateSnapshot(state))
  }

  function OfferMessages(messages: Option<seq<Message>>, sys: Sys): Sys {
    if messages.None? || messages.value == [] then sys else Offer(sys, MessagesSnapshot(messages.value))
  }

  function HistoryConfig(cfg: Config): ConvertConfig {
    ConvertConfig(cfg.converter, cfg.marshal, None, 0)
  }

  function BoundarySnapshots(cfg: Config, stored: Option<Session>, sys: Sys): Sys {
    var run := sys.st.run;
    if run.userId == "" then sys
    else if stored.Some? then
      OfferMessages(ConvertSession(HistoryConfig(cfg), stored.value.history),
                    OfferState(Snapshot(stored, run.reqState), sys))
    else if run.reqState != map[] then OfferState(Snapshot(None, run.reqState), sys)
    else sys
  }

  function InterruptFor(cfg: Config, call: FunctionCall, original: FunctionCall): Interrupt {
    Interrupt(call.id, "tool_call", cfg.hint(call), original.id, "", ConfirmationSchema(),
              map["adk" := Object(map["confirmationCallId" := Str(call.id),
                                      "confirmationCallName" := Str(CONFIRMATION_NAME)])])
  }

  function FinishInterrupted(interrupt: Interrupt, sys: Sys): Sys {
    Offer(sys, RunFinished(sys.st.run.threadId, sys.st.run.runId, Interrupted([interrupt])))
    .(st := sys.st.(interrupts := sys.st.interrupts + [interrupt], finalized := true))
  }

  /** A confirmation call: the proposal, the snapshots, then the interrupt outcome.
      `stored` is what the session lookup at this point finds. */
  function Interrupting(cfg: Config, stored: Option<Session>, call: FunctionCall, sys: Sys): (Sys, Status) {
    var original := cfg.original(call);
    if original.None? then (sys, Stop(BadConfirmation))
    else
      var (proposed, status) := Call(cfg, original.value, Finalize(sys));
      if status.Stop? then (proposed, status)
      else
        (FinishInterrupted(InterruptFor(cfg, call, original.value), BoundarySnapshots(cfg, stored, proposed)), Done)
  }

  function CallPart(cfg: Config, stored: Option<Session>, call: FunctionCall, sys: Sys): (Sys, Status) {
    var closed := CloseReasoning(CloseText(sys));
    if call.name == CONFIRMATION_NAME then Interrupting(cfg, stored, call, closed) else Call(cfg, call, closed)
  }

  function ResponsePart(cfg: Config, response: FunctionResponse, sys: Sys): (Sys, Status) {
    var json := cfg.marshal(response.response);
    if json.None? then (sys, Stop(ResponseMarshal))
    else
      (Offer(sys, ToolCallResult(cfg.freshId(sys.st.nextId), response.id, json.value))
       .(st := sys.st.(nextId := sys.st.nextId + 1)), Continue)
  }

  function PlainPart(cfg: Config, stored: Option<Session>, ev: Event, part: Part, sys: Sys): (Sys, Status)
    requires part.Part?
  {
    if part.thought && part.text != "" then
      (if ev.partial then Thought(cfg, part.text, sys) else sys, Continue)
    else if part.text != "" && !part.thought then (Text(cfg, ev.partial, part.text, sys), Continue)
    else if part.call.Some? then CallPart(cfg, stored, part.call.value, sys)
    else if part.response.Some? then ResponsePart(cfg, part.response.value, sys)
    else (sys, Continue)
  }

  function OnePart(cfg: Config, stored: Option<Session>, ev: Event, part: Part, sys: Sys): (Sys, Status) {
    if part.NilPart? then (sys, Continue)
    else if cfg.converter.None? then PlainPart(cfg, stored, ev, part, sys)
    else
      match cfg.converter.value(ev, part)
      case Broken => (sys, Stop(ConverterFailed))
      case Handled(events) => (OfferAll(sys, events), Continue)
      case NotHandled => PlainPart(cfg, stored, ev, part, sys)
  }

  function OpOf(entry: (string, Value)): PatchOp {
    PatchOp("add", "/" + Pointer.Escape(entry.0), entry.1)
  }

  function OpsOf(delta: seq<(string, Value)>): seq<PatchOp> {
    seq(|delta|, i requires 0 <= i < |delta| => OpOf(delta[i]))
  }

  function OfferDelta(delta: seq<(string, Value)>, sys: Sys): Sys {
    if delta == [] then sys else Offer(sys, StateDelta(OpsOf(delta)))
  }

  /** After the parts: the state delta, then everything closed if the turn is complete. */
  function Ending(ev: Event, sys: Sys): Sys {
    var s := OfferDelta(ev.delta, sys);
    if ev.turnComplete then Finalize(s) else s
  }

  /** Parts i, i+1, ...: each starts only while the emitter is healthy. */
  function RunParts(cfg: Config, net: Net, stored: Option<Session>, ev: Event, i: nat, sys: Sys): (Sys, Status)
    requires i <= |PartsOf(ev)|
    decreases |PartsOf(ev)| - i
  {
    if i == |PartsOf(ev)| then (sys, Continue)
    else if Fails(net, sys.offered) then (sys, Stop(WriteFailed))
    else
      var (next, status) := OnePart(cfg, stored, ev, PartsOf(ev)[i], sys);
      if status.Continue? then RunParts(cfg, net, stored, ev, i + 1, next) else (next, status)
  }

  /** processEvent: step change, parts, state delta, turn end. */
  function RunEvent(cfg: Config, net: Net, stored: Option<Session>, ev: Event, sys: Sys): (Sys, Status) {
    var (mid, status) := RunParts(cfg, net, stored, ev, 0, ChangeStep(cfg.appName, ev.author, sys));
    if !status.Continue? then (mid, status)
    else
      var last := Ending(ev, mid);
      (last, if Fails(net, last.offered) then Stop(WriteFailed) else Continue)
  }

  /** Only a completed interrupt has looked the session up. */
  function AfterPart(b: Backend, userId: string, status: Status): Backend {
    if status.Done? && userId != "" then Called(b) else b
  }
}
