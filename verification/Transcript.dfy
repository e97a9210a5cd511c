/** Everything a client can read of a run, in order and in its step, as a function of what
    the agent yields: no ids that the launcher makes up, no opening or closing events. */
module Transcript {
  import opened Values
  import opened Adk
  import opened Protocol
  import opened Launcher
  import opened Emission
  import opened Sessions
  import opened Convert
  import opened Interrupts
  import opened StreamSpec
  import opened RunSpec
  import opened Halting
  import opened Outcomes
  import Pointer

  // ----- reading a trace

  /** What an event shows: lifecycle events nothing, the others themselves without message ids. */
  function Shown(ev: AgEvent): seq<AgEvent> {
    match ev
    case TextContent(_, delta) => [TextContent("", delta)]
    case ReasoningContent(_, delta) => [ReasoningContent("", delta)]
    case ToolCallStart(id, name, _) => [ToolCallStart(id, name, None)]
    case ToolCallResult(_, id, response) => [ToolCallResult("", id, response)]
    case TextStart(_) => []
    case TextEnd(_) => []
    case ReasoningStart(_) => []
    case ReasoningMessageStart(_) => []
    case ReasoningMessageEnd(_) => []
    case ReasoningEnd(_) => []
    case StepStarted(_) => []
    case StepFinished(_) => []
    case _ => [ev]
  }

  /** A shown event and the step that is open at it; "" when none is. */
  datatype Line = Line(step: string, event: AgEvent)

  function In(step: string, evs: seq<AgEvent>): (lines: seq<Line>)
    ensures |lines| == |evs|
  {
    seq(|evs|, i requires 0 <= i < |evs| => Line(step, evs[i]))
  }

  datatype Page = Page(step: string, lines: seq<Line>)

  function NextPage(page: Page, ev: AgEvent): Page {
    match ev
    case StepStarted(name) => page.(step := name)
    case StepFinished(_) => page.(step := "")
    case _ => page.(lines := page.lines + In(page.step, Shown(ev)))
  }

  function Read(trace: seq<AgEvent>): Page {
    if trace == [] then Page("", []) else NextPage(Read(trace[..|trace| - 1]), trace[|trace| - 1])
  }

  lemma ReadSnoc(trace: seq<AgEvent>, ev: AgEvent)
    ensures Read(trace + [ev]) == NextPage(Read(trace), ev)
  {
    assert (trace + [ev])[..|trace|] == trace;
  }

  lemma InAppend(step: string, a: seq<AgEvent>, b: seq<AgEvent>)
    ensures In(step, a + b) == In(step, a) + In(step, b)
  {
  }

  // ----- what parts and events show

  /** A complete tool call. */
  function CallShown(cfg: Config, call: FunctionCall): seq<AgEvent>
    requires cfg.marshal(call.args).Some?
  {
    [ToolCallStart(call.id, call.name, None), ToolCallArgs(call.id, cfg.marshal(call.args).value), ToolCallEnd(call.id)]
  }

  /** A part that lets the run go on, when `emitted` bytes of the current thought are out. */
  function PartShown(cfg: Config, ev: Event, p: Part, emitted: nat): seq<AgEvent>
    requires !EndsRun(cfg, ev, p)
  {
    if Taken(cfg.converter, ev, p) then cfg.converter.value(ev, p).events
    else if IsThought(p) then
      if ev.partial && |p.text| > emitted then [ReasoningContent("", p.text[emitted..])] else []
    else if IsText(p) then if ev.partial then [TextContent("", p.text)] else []
    else if IsCall(p) then CallShown(cfg, p.call.value)
    else if IsResponse(p) then
      [ToolCallResult("", p.response.value.id, cfg.marshal(p.response.value.response).value)]
    else []
  }

  /** How much of the current thought is out after a part: text and calls end a thought. */
  function EmittedBy(cfg: Config, ev: Event, p: Part, emitted: nat): nat {
    if Taken(cfg.converter, ev, p) then emitted
    else if IsThought(p) then if ev.partial && |p.text| > emitted then |p.text| else emitted
    else if IsText(p) || IsCall(p) then 0
    else emitted
  }

  function EmittedUpTo(cfg: Config, ev: Event, n: nat, emitted: nat): nat
    requires n <= |PartsOf(ev)|
  {
    if n == 0 then emitted else EmittedBy(cfg, ev, PartsOf(ev)[n - 1], EmittedUpTo(cfg, ev, n - 1, emitted))
  }

  /** The first n parts, none of which ends the run. */
  function PartsShown(cfg: Config, ev: Event, n: nat, emitted: nat): seq<AgEvent>
    requires n <= EndingPart(cfg, ev, 0)
  {
    if n == 0 then []
    else
      PartsShown(cfg, ev, n - 1, emitted) +
      PartShown(cfg, ev, PartsOf(ev)[n - 1], EmittedUpTo(cfg, ev, n - 1, emitted))
  }

  function DeltaShown(delta: seq<(string, Value)>): seq<AgEvent> {
    if delta == [] then []
    else
      [StateDelta(seq(|delta|, i requires 0 <= i < |delta| =>
                    PatchOp("add", "/" + Pointer.Escape(delta[i].0), delta[i].1)))]
  }

  /** The open step, and how much of the current thought is out. */
  datatype Place = Place(step: string, emitted: nat)

  /** The step of an event: its author's, the root agent having none; without an author it stays. */
  function StepFor(appName: string, author: string, step: string): string {
    if author == "" then step else if author == appName then "" else author
  }

  /** After an event; a completed turn closes the step and the thought. */
  function PlaceAfter(cfg: Config, ev: Event, place: Place): Place {
    if ev.turnComplete then Place("", 0)
    else Place(StepFor(cfg.appName, ev.author, place.step), EmittedUpTo(cfg, ev, |PartsOf(ev)|, place.emitted))
  }

  /** An event with no part that ends the run. */
  function EventShown(cfg: Config, ev: Event, emitted: nat): seq<AgEvent>
    requires EndingPart(cfg, ev, 0) == |PartsOf(ev)|
  {
    PartsShown(cfg, ev, |PartsOf(ev)|, emitted) + DeltaShown(ev.delta)
  }

  // ----- where a run ends

  /** The state a client is shown: stored state overridden by the request's, without the
      launcher's own keys. */
  function Merged(stored: Fields, given: Fields): Fields {
    map k | k in stored.Keys + given.Keys && !("_agui_" <= k) :: if k in given then given[k] else stored[k]
  }

  function StateShown(state: Fields): seq<AgEvent> {
    if state == map[] then [] else [StateSnapshot(state)]
  }

  function MessagesShown(messages: Option<seq<Message>>): seq<AgEvent> {
    if messages.None? || messages.value == [] then [] else [MessagesSnapshot(messages.value)]
  }

  /** Before an interrupt: the state, then the whole history of the session found then. */
  function BoundaryShown(cfg: Config, run: RunInfo, stored: Option<Session>): seq<AgEvent> {
    if run.userId == "" then []
    else
      match stored
      case None => StateShown(Merged(map[], run.reqState))
      case Some(session) =>
        StateShown(Merged(session.state, run.reqState)) +
        MessagesShown(ConvertSession(ConvertConfig(cfg.converter, cfg.marshal, None, 0), session.history))
  }

  /** The interrupt for a confirmation call and the call it wraps. */
  function Question(cfg: Config, call: FunctionCall, original: FunctionCall): Interrupt {
    Interrupt(call.id, "tool_call", cfg.hint(call), original.id, "", ConfirmationSchema(),
              map["adk" := Object(map["confirmationCallId" := Str(call.id),
                                      "confirmationCallName" := Str("adk_request_confirmation")])])
  }

  /** The part that ends the run: a confirmation call shows the call it wraps, outside any
      step, and if that encodes what a client needs to answer it; a call that does not
      encode shows its start. */
  function EndShown(cfg: Config, run: RunInfo, stored: Option<Session>, ev: Event, p: Part, step: string): seq<Line>
    requires EndsRun(cfg, ev, p)
  {
    if Taken(cfg.converter, ev, p) || !IsCall(p) then []
    else
      var call := p.call.value;
      if call.name != CONFIRMATION_NAME then In(step, [ToolCallStart(call.id, call.name, None)])
      else if cfg.original(call).None? then []
      else
        var original := cfg.original(call).value;
        if cfg.marshal(original.args).None? then In("", [ToolCallStart(original.id, original.name, None)])
        else
          In("", CallShown(cfg, original) + BoundaryShown(cfg, run, stored) +
                 [RunFinished(run.threadId, run.runId, Interrupted([Question(cfg, call, original)]))])
  }

  /** Why a part that ends the run without an interrupt ends it. */
  function EndFault(cfg: Config, ev: Event, p: Part): RunFault {
    if Taken(cfg.converter, ev, p) then ConverterFailed
    else if IsCall(p) && p.call.value.name == CONFIRMATION_NAME && cfg.original(p.call.value).None? then BadConfirmation
    else if IsCall(p) then ArgsMarshal
    else ResponseMarshal
  }

  function ErrorShown(run: RunInfo, fault: RunFault): seq<Line> {
    [Line("", RunError(run.runId, fault))]
  }

  /** The arrival that ends the run: an agent's error as it is reported, or the parts before
      the one that ends the run, that part, and the error unless it asks. */
  function EndingShown(cfg: Config, run: RunInfo, stored: Option<Session>, item: Item, place: Place): seq<Line>
    requires EndsAt(cfg, item)
  {
    match item
    case Failure(message) => ErrorShown(run, AgentFailed(message, ""))
    case Yielded(ev) =>
      if ev.errorMessage != "" then ErrorShown(run, AgentFailed(ev.errorMessage, ev.errorCode))
      else
        var m, step := EndingPart(cfg, ev, 0), StepFor(cfg.appName, ev.author, place.step);
        var p := PartsOf(ev)[m];
        In(step, PartsShown(cfg, ev, m, place.emitted)) + EndShown(cfg, run, stored, ev, p, step) +
        if Pauses(cfg, ev, p) then [] else ErrorShown(run, EndFault(cfg, ev, p))
  }

  // ----- whole runs

  function PlaceAt(cfg: Config, arrivals: seq<Arrival>, n: nat): Place
    requires n <= |arrivals|
  {
    if n == 0 then Place("", 0)
    else
      var place := PlaceAt(cfg, arrivals, n - 1);
      if arrivals[n - 1].item.Yielded? then PlaceAfter(cfg, arrivals[n - 1].item.event, place) else place
  }

  /** The first n arrivals, none of which ends the run. */
  function LinesUpTo(cfg: Config, arrivals: seq<Arrival>, n: nat): seq<Line>
    requires n <= EndingArrival(cfg, arrivals, 0)
  {
    if n == 0 then []
    else
      LinesUpTo(cfg, arrivals, n - 1) +
      match arrivals[n - 1].item
      case Yielded(ev) =>
        var place := PlaceAt(cfg, arrivals, n - 1);
        In(StepFor(cfg.appName, ev.author, place.step), EventShown(cfg, ev, place.emitted))
      case _ => []
  }

  /** What the agent's run shows, to the arrival that ends it or to its end. `found` is the
      session that the lookup at an interrupt would find, given what the runner stored. */
  function AgentShown(cfg: Config, run: RunInfo, agent: Agent, reachable: bool): seq<Line> {
    if agent.startError.Some? then ErrorShown(run, AgentFailed(agent.startError.value, ""))
    else
      var n := EndingArrival(cfg, agent.arrivals, 0);
      LinesUpTo(cfg, agent.arrivals, n) +
      if n == |agent.arrivals| then [Line("", RunFinished(run.threadId, run.runId, Success))]
      else
        var arrival := agent.arrivals[n];
        EndingShown(cfg, run, if reachable then Some(arrival.session) else None, arrival.item,
                    PlaceAt(cfg, agent.arrivals, n))
  }

  // ----- one operation at a time

  ghost predicate Stands(cfg: Config, sys: Sys, place: Place, lines: seq<Line>) {
    && Read(sys.offered) == Page(place.step, lines) && sys.st.step == place.step && sys.st.emittedLen == place.emitted
    && (place.step != "" ==> place.step != cfg.appName) && !sys.st.finalized
  }

  /** Nothing to read is added, and the step stays. */
  ghost predicate Unread(a: Sys, b: Sys) {
    && Read(b.offered) == Read(a.offered) && b.st.step == a.st.step
    && b.st.finalized == a.st.finalized && b.st.run == a.st.run
  }

  predicate Lifecycle(ev: AgEvent) {
    Shown(ev) == [] && !ev.StepStarted? && !ev.StepFinished?
  }

  lemma OfferUnread(sys: Sys, ev: AgEvent)
    requires Lifecycle(ev)
    ensures Unread(sys, Offer(sys, ev))
  {
    hide Read, Lifecycle;
    ReadSnoc(sys.offered, ev);
    NextUnread(Read(sys.offered), ev);
  }

  lemma NextUnread(page: Page, ev: AgEvent)
    requires Lifecycle(ev)
    ensures NextPage(page, ev) == page
  {
    hide Shown;
    assert In(page.step, []) == [];
    assert page.lines + [] == page.lines;
  }

  lemma OfferShows(cfg: Config, sys: Sys, place: Place, lines: seq<Line>, ev: AgEvent)
    requires Stands(cfg, sys, place, lines) && !ev.StepStarted? && !ev.StepFinished?
    ensures Stands(cfg, Offer(sys, ev), place, lines + In(place.step, Shown(ev)))
  {
    ReadSnoc(sys.offered, ev);
  }

  lemma CloseTextUnread(sys: Sys)
    ensures Unread(sys, CloseText(sys)) && CloseText(sys).st.emittedLen == sys.st.emittedLen
  {
    hide Read;
    OfferUnread(sys, TextEnd(sys.st.text));
  }

  lemma CloseReasoningUnread(sys: Sys)
    ensures Unread(sys, CloseReasoning(sys)) && CloseReasoning(sys).st.emittedLen == 0
  {
    hide Read;
    OfferUnread(sys, ReasoningMessageEnd(sys.st.thought));
    OfferUnread(CloseThought(sys), ReasoningEnd(CloseThought(sys).st.phase));
  }

  lemma CloseStepStands(cfg: Config, sys: Sys, place: Place, lines: seq<Line>)
    requires Stands(cfg, sys, place, lines)
    ensures Stands(cfg, CloseStep(sys), place.(step := ""), lines) && CloseStep(sys).st.run == sys.st.run
  {
    ReadSnoc(sys.offered, StepFinished(sys.st.step));
  }

  lemma FinalizeStands(cfg: Config, sys: Sys, place: Place, lines: seq<Line>)
    requires Stands(cfg, sys, place, lines)
    ensures Stands(cfg, Finalize(sys), Place("", 0), lines) && Finalize(sys).st.run == sys.st.run
  {
    hide Read, CloseText, CloseReasoning, CloseStep;
    CloseTextUnread(sys);
    CloseReasoningUnread(CloseText(sys));
    CloseStepStands(cfg, CloseReasoning(CloseText(sys)), place.(emitted := 0), lines);
  }

  lemma ChangeStepStands(cfg: Config, author: string, sys: Sys, place: Place, lines: seq<Line>)
    requires Stands(cfg, sys, place, lines)
    ensures var next := ChangeStep(cfg.appName, author, sys);
            && Stands(cfg, next, place.(step := StepFor(cfg.appName, author, place.step)), lines)
            && next.st.run == sys.st.run
  {
    hide Read, CloseStep;
    CloseStepStands(cfg, sys, place, lines);
    ReadSnoc(CloseStep(sys).offered, StepStarted(author));
  }

  lemma OpeningUnread(cfg: Config, sys: Sys)
    ensures var open := OpenThought(cfg, OpenPhase(cfg, sys));
            Unread(sys, open) && open.st.emittedLen == sys.st.emittedLen
    ensures Unread(sys, OpenText(cfg, sys)) && OpenText(cfg, sys).st.emittedLen == sys.st.emittedLen
  {
    hide Read;
    var id := cfg.freshId(sys.st.nextId);
    OfferUnread(sys, TextStart(id));
    OfferUnread(sys, ReasoningStart(id));
    var phased := OpenPhase(cfg, sys);
    OfferUnread(phased, ReasoningMessageStart(cfg.freshId(phased.st.nextId)));
  }

  lemma ThoughtShows(cfg: Config, text: string, sys: Sys, place: Place, lines: seq<Line>)
    requires Stands(cfg, sys, place, lines) && |text| > place.emitted
    ensures Stands(cfg, Thought(cfg, text, sys), place.(emitted := |text|),
                   lines + In(place.step, [ReasoningContent("", text[place.emitted..])]))
  {
    hide Read, CloseText, OpenPhase, OpenThought;
    var started := sys.(st := sys.st.(emittedLen := |text|));
    CloseTextUnread(started);
    OpeningUnread(cfg, CloseText(started));
    var open := OpenThought(cfg, OpenPhase(cfg, CloseText(started)));
    OfferShows(cfg, open, place.(emitted := |text|), lines,
               ReasoningContent(open.st.thought, text[place.emitted..]));
  }

  lemma TextShows(cfg: Config, partial: bool, text: string, sys: Sys, place: Place, lines: seq<Line>)
    requires Stands(cfg, sys, place, lines)
    ensures Stands(cfg, Text(cfg, partial, text, sys), place.(emitted := 0),
                   lines + In(place.step, if partial then [TextContent("", text)] else []))
  {
    hide Read, CloseReasoning, OpenText;
    CloseReasoningUnread(sys);
    OpeningUnread(cfg, CloseReasoning(sys));
    var open := OpenText(cfg, CloseReasoning(sys));
    OfferShows(cfg, open, place.(emitted := 0), lines, TextContent(open.st.text, text));
  }

  /** A call shows itself, or only its start if its arguments do not encode. */
  lemma CallShows(cfg: Config, call: FunctionCall, sys: Sys, place: Place, lines: seq<Line>)
    requires Stands(cfg, sys, place, lines)
    ensures var (next, status) := Call(cfg, call, sys);
            && next.st == sys.st
            && status == (if cfg.marshal(call.args).Some? then Continue else Stop(ArgsMarshal))
            && Stands(cfg, next, place,
                      lines + In(place.step, if cfg.marshal(call.args).Some? then CallShown(cfg, call)
                                             else [ToolCallStart(call.id, call.name, None)]))
  {
    hide Read;
    var start := ToolCallStart(call.id, call.name, ParentOf(sys.st));
    var shown := [ToolCallStart(call.id, call.name, None)];
    OfferShows(cfg, sys, place, lines, start);
    if cfg.marshal(call.args).Some? {
      var args := ToolCallArgs(call.id, cfg.marshal(call.args).value);
      var started := Offer(sys, start);
      OfferShows(cfg, started, place, lines + In(place.step, shown), args);
      OfferShows(cfg, Offer(started, args), place, lines + In(place.step, shown) + In(place.step, [args]),
                 ToolCallEnd(call.id));
      assert CallShown(cfg, call) == shown + [args] + [ToolCallEnd(call.id)];
      assert lines + In(place.step, CallShown(cfg, call)) ==
             lines + In(place.step, shown) + In(place.step, [args]) + In(place.step, [ToolCallEnd(call.id)]);
    }
  }

  lemma {:induction false} NeutralShows(cfg: Config, evs: seq<AgEvent>, sys: Sys, place: Place, lines: seq<Line>)
    requires Stands(cfg, sys, place, lines) && forall i :: 0 <= i < |evs| ==> Neutral(evs[i])
    ensures Stands(cfg, OfferAll(sys, evs), place, lines + In(place.step, evs))
  {
    hide Read;
    if evs == [] {
      assert OfferAll(sys, evs) == sys;
    } else {
      var front, last := evs[..|evs| - 1], evs[|evs| - 1];
      NeutralShows(cfg, front, sys, place, lines);
      OfferShows(cfg, OfferAll(sys, front), place, lines + In(place.step, front), last);
      assert OfferAll(sys, evs) == Offer(OfferAll(sys, front), last);
      assert evs == front + [last];
      InAppend(place.step, front, [last]);
    }
  }

  /** A part that lets the run go on. */
  lemma PartStands(cfg: Config, stored: Option<Session>, ev: Event, p: Part, sys: Sys, place: Place, lines: seq<Line>)
    requires NeutralConverter(cfg) && Stands(cfg, sys, place, lines) && !EndsRun(cfg, ev, p)
    ensures var (next, status) := OnePart(cfg, stored, ev, p, sys);
            && status == Continue && next.st.run == sys.st.run
            && Stands(cfg, next, place.(emitted := EmittedBy(cfg, ev, p, place.emitted)),
                      lines + In(place.step, PartShown(cfg, ev, p, place.emitted)))
  {
    hide Read, Stands, Thought, Text, CloseText, CloseReasoning, Call, Finalize, CallShown;
    OnePartKeeps(cfg, stored, ev, p, sys);
    PartEnds(cfg, stored, ev, p, sys);
    assert lines + In(place.step, []) == lines;
    if Taken(cfg.converter, ev, p) {
      NeutralShows(cfg, cfg.converter.value(ev, p).events, sys, place, lines);
    } else if p.Part? {
      PlainStands(cfg, stored, ev, p, sys, place, lines);
    }
  }

  lemma PlainStands(cfg: Config, stored: Option<Session>, ev: Event, p: Part, sys: Sys, place: Place, lines: seq<Line>)
    requires p.Part? && Stands(cfg, sys, place, lines) && !Taken(cfg.converter, ev, p) && !EndsPlain(cfg, p)
    ensures Stands(cfg, PlainPart(cfg, stored, ev, p, sys).0,
                   place.(emitted := EmittedBy(cfg, ev, p, place.emitted)),
                   lines + In(place.step, PartShown(cfg, ev, p, place.emitted)))
  {
    hide Read, Thought, Text, CloseText, CloseReasoning, Call, Finalize, CallShown;
    assert lines + In(place.step, []) == lines;
    if IsThought(p) {
      if ev.partial {
        if |p.text| > place.emitted {
          ThoughtShows(cfg, p.text, sys, place, lines);
        } else {
          ThoughtIgnored(cfg, p.text, sys);
        }
      }
    } else if IsText(p) {
      TextShows(cfg, ev.partial, p.text, sys, place, lines);
    } else if IsCall(p) {
      CloseTextUnread(sys);
      CloseReasoningUnread(CloseText(sys));
      CallShows(cfg, p.call.value, CloseReasoning(CloseText(sys)), place.(emitted := 0), lines);
    } else if IsResponse(p) {
      OfferShows(cfg, sys, place, lines,
                 ToolCallResult(cfg.freshId(sys.st.nextId), p.response.value.id,
                                cfg.marshal(p.response.value.response).value));
    }
  }

  lemma ThoughtIgnored(cfg: Config, text: string, sys: Sys)
    requires |text| <= sys.st.emittedLen
    ensures Thought(cfg, text, sys) == sys
  {
  }

  // ----- the part that ends the run

  /** The snapshot's two spellings: hiding the launcher's keys before or after merging. */
  lemma SnapshotIsMerged(stored: Option<Session>, given: Fields)
    ensures Snapshot(stored, given) == Merged(if stored.Some? then stored.value.state else map[], given)
  {
    var base := if stored.Some? then stored.value.state else map[];
    forall k
      ensures IsInternalKey(k) <==> "_agui_" <= k
    {
    }
  }

  lemma StateShows(cfg: Config, state: Fields, sys: Sys, place: Place, lines: seq<Line>)
    requires Stands(cfg, sys, place, lines)
    ensures Stands(cfg, OfferState(state, sys), place, lines + In(place.step, StateShown(state)))
  {
    hide Read;
    OfferShows(cfg, sys, place, lines, StateSnapshot(state));
    assert lines + In(place.step, []) == lines;
  }

  lemma MessagesShow(cfg: Config, messages: Option<seq<Message>>, sys: Sys, place: Place, lines: seq<Line>)
    requires Stands(cfg, sys, place, lines)
    ensures Stands(cfg, OfferMessages(messages, sys), place, lines + In(place.step, MessagesShown(messages)))
  {
    hide Read;
    if messages.Some? {
      OfferShows(cfg, sys, place, lines, MessagesSnapshot(messages.value));
    }
    assert lines + In(place.step, []) == lines;
  }

  lemma BoundaryShows(cfg: Config, stored: Option<Session>, sys: Sys, place: Place, lines: seq<Line>)
    requires Stands(cfg, sys, place, lines)
    ensures var next := BoundarySnapshots(cfg, stored, sys);
            && next.st == sys.st
            && Stands(cfg, next, place, lines + In(place.step, BoundaryShown(cfg, sys.st.run, stored)))
  {
    hide Read, Stands, Snapshot, Merged, ConvertSession, StateShown, MessagesShown, OfferState, OfferMessages;
    var run := sys.st.run;
    SnapshotIsMerged(stored, run.reqState);
    assert lines + In(place.step, []) == lines;
    if stored.Some? {
      var state := Merged(stored.value.state, run.reqState);
      var messages := ConvertSession(HistoryConfig(cfg), stored.value.history);
      StateShows(cfg, state, sys, place, lines);
      MessagesShow(cfg, messages, OfferState(state, sys), place, lines + In(place.step, StateShown(state)));
      InAppend(place.step, StateShown(state), MessagesShown(messages));
      assert lines + In(place.step, StateShown(state) + MessagesShown(messages))
          == lines + In(place.step, StateShown(state)) + In(place.step, MessagesShown(messages));
      OffersKeep(state, messages, sys);
    } else {
      StateShows(cfg, Merged(map[], run.reqState), sys, place, lines);
      OffersKeep(Merged(map[], run.reqState), None, sys);
      NothingMerged(run.reqState);
    }
  }

  lemma OffersKeep(state: Fields, messages: Option<seq<Message>>, sys: Sys)
    ensures OfferState(state, sys).st == sys.st && OfferMessages(messages, OfferState(state, sys)).st == sys.st
  {
  }

  lemma NothingMerged(given: Fields)
    ensures given == map[] ==> StateShown(Merged(map[], given)) == []
  {
  }

  /** What a run reads when it has ended, or is about to end in an error. */
  ghost predicate Tells(sys: Sys, lines: seq<Line>) {
    Read(sys.offered).lines == lines && Read(sys.offered).step == sys.st.step
  }

  lemma StandsTells(cfg: Config, sys: Sys, place: Place, lines: seq<Line>)
    requires Stands(cfg, sys, place, lines)
    ensures Tells(sys, lines) && !sys.st.finalized
  {
  }

  lemma FinishShows(cfg: Config, interrupt: Interrupt, sys: Sys, place: Place, lines: seq<Line>)
    requires Stands(cfg, sys, place, lines)
    ensures FinishInterrupted(interrupt, sys).st.finalized
    ensures Tells(FinishInterrupted(interrupt, sys),
                  lines + In(place.step, [RunFinished(sys.st.run.threadId, sys.st.run.runId,
                                                      Interrupted([interrupt]))]))
  {
    ReadSnoc(sys.offered, RunFinished(sys.st.run.threadId, sys.st.run.runId, Interrupted([interrupt])));
  }

  /** A confirmation call: the call it wraps outside any step, and the question if that encodes. */
  lemma InterruptingShows(cfg: Config, stored: Option<Session>, call: FunctionCall, sys: Sys, place: Place,
          lines: seq<Line>)
    requires Stands(cfg, sys, place, lines) && cfg.original(call).Some?
    ensures var (next, status) := Interrupting(cfg, stored, call, sys);
            var original, run := cfg.original(call).value, sys.st.run;
            if cfg.marshal(original.args).None? then
              status == Stop(ArgsMarshal) && !next.st.finalized
              && Tells(next, lines + In("", [ToolCallStart(original.id, original.name, None)]))
            else
              status == Done && next.st.finalized &&
              Tells(next, lines + In("", CallShown(cfg, original) + BoundaryShown(cfg, run, stored) +
                                         [RunFinished(run.threadId, run.runId,
                                                      Interrupted([Question(cfg, call, original)]))]))
  {
    hide Read, Stands, Tells, Finalize, Call, BoundarySnapshots, BoundaryShown, CallShown;
    var original, run, closed := cfg.original(call).value, sys.st.run, Place("", 0);
    FinalizeStands(cfg, sys, place, lines);
    CallShows(cfg, original, Finalize(sys), closed, lines);
    var (proposed, status) := Call(cfg, original, Finalize(sys));
    if status.Continue? {
      var shown, boundary := CallShown(cfg, original), BoundaryShown(cfg, run, stored);
      var asked := [RunFinished(run.threadId, run.runId, Interrupted([Question(cfg, call, original)]))];
      BoundaryShows(cfg, stored, proposed, closed, lines + In("", shown));
      FinishShows(cfg, InterruptFor(cfg, call, original), BoundarySnapshots(cfg, stored, proposed), closed,
                  lines + In("", shown) + In("", boundary));
      assert lines + In("", shown + boundary + asked)
          == lines + In("", shown) + In("", boundary) + In("", asked);
    } else {
      StandsTells(cfg, proposed, closed, lines + In("", [ToolCallStart(original.id, original.name, None)]));
    }
  }

  lemma EndingPartShows(cfg: Config, stored: Option<Session>, ev: Event, p: Part, sys: Sys, place: Place,
          lines: seq<Line>)
    requires Stands(cfg, sys, place, lines) && EndsRun(cfg, ev, p)
    ensures var (next, status) := OnePart(cfg, stored, ev, p, sys);
            && Tells(next, lines + EndShown(cfg, sys.st.run, stored, ev, p, place.step))
            && (if Pauses(cfg, ev, p) then status == Done && next.st.finalized
                else status == Stop(EndFault(cfg, ev, p)) && !next.st.finalized)
  {
    hide Read, Stands, Tells, Interrupting, Thought, Text, CloseText, CloseReasoning, Call, Finalize, CallShown;
    hide BoundaryShown;
    StandsTells(cfg, sys, place, lines);
    assert lines + [] == lines;
    if !Taken(cfg.converter, ev, p) && IsCall(p) {
      var call, closed := p.call.value, CloseReasoning(CloseText(sys));
      var there := place.(emitted := 0);
      ClosedStands(cfg, sys, place, lines);
      if call.name != CONFIRMATION_NAME {
        CallShows(cfg, call, closed, there, lines);
        StandsTells(cfg, Call(cfg, call, closed).0, there,
                    lines + In(place.step, [ToolCallStart(call.id, call.name, None)]));
      } else if cfg.original(call).Some? {
        InterruptingShows(cfg, stored, call, closed, there, lines);
      } else {
        BadConfirmationStops(cfg, stored, call, closed);
        StandsTells(cfg, closed, there, lines);
      }
    }
  }

  lemma BadConfirmationStops(cfg: Config, stored: Option<Session>, call: FunctionCall, sys: Sys)
    requires cfg.original(call).None?
    ensures Interrupting(cfg, stored, call, sys) == (sys, Stop(BadConfirmation))
  {
  }

  lemma ClosedStands(cfg: Config, sys: Sys, place: Place, lines: seq<Line>)
    requires Stands(cfg, sys, place, lines)
    ensures var closed := CloseReasoning(CloseText(sys));
            Stands(cfg, closed, place.(emitted := 0), lines) && closed.st.run == sys.st.run
  {
    hide Read, CloseText, CloseReasoning;
    CloseTextUnread(sys);
    CloseReasoningUnread(CloseText(sys));
  }

  // ----- events

  /** Parts i, i + 1, ... of an event of which the parts before i are shown. */
  lemma {:induction false} PartsStand(cfg: Config, stored: Option<Session>, ev: Event, i: nat, sys: Sys, place: Place,
          lines: seq<Line>)
    requires NeutralConverter(cfg) && i <= |PartsOf(ev)| && i <= EndingPart(cfg, ev, i) == EndingPart(cfg, ev, 0)
    requires Stands(cfg, sys, place.(emitted := EmittedUpTo(cfg, ev, i, place.emitted)),
                    lines + In(place.step, PartsShown(cfg, ev, i, place.emitted)))
    ensures var (next, status) := RunParts(cfg, Quiet(), stored, ev, i, sys);
            var m := EndingPart(cfg, ev, 0);
            var shown := lines + In(place.step, PartsShown(cfg, ev, m, place.emitted));
            if m == |PartsOf(ev)| then
              && status == Continue && next.st.run == sys.st.run
              && Stands(cfg, next, place.(emitted := EmittedUpTo(cfg, ev, m, place.emitted)), shown)
            else
              && Tells(next, shown + EndShown(cfg, sys.st.run, stored, ev, PartsOf(ev)[m], place.step))
              && (if Pauses(cfg, ev, PartsOf(ev)[m]) then status == Done && next.st.finalized
                  else status == Stop(EndFault(cfg, ev, PartsOf(ev)[m])) && !next.st.finalized)
    decreases |PartsOf(ev)| - i
  {
    hide Read, Stands, Tells, OnePart, Send, EndsRun, Pauses, EndShown, EndFault, PartShown, EmittedBy;
    QuietSends(sys.offered);
    if i < |PartsOf(ev)| {
      var p, emitted := PartsOf(ev)[i], EmittedUpTo(cfg, ev, i, place.emitted);
      var before := PartsShown(cfg, ev, i, place.emitted);
      if EndsRun(cfg, ev, p) {
        EndingPartShows(cfg, stored, ev, p, sys, place.(emitted := emitted), lines + In(place.step, before));
      } else {
        PartStands(cfg, stored, ev, p, sys, place.(emitted := emitted), lines + In(place.step, before));
        NextShown(cfg, ev, i, place, lines);
        PartsStand(cfg, stored, ev, i + 1, OnePart(cfg, stored, ev, p, sys).0, place, lines);
      }
    }
  }

  lemma NextShown(cfg: Config, ev: Event, i: nat, place: Place, lines: seq<Line>)
    requires i < EndingPart(cfg, ev, 0)
    ensures var p, emitted := PartsOf(ev)[i], EmittedUpTo(cfg, ev, i, place.emitted);
            && EmittedUpTo(cfg, ev, i + 1, place.emitted) == EmittedBy(cfg, ev, p, emitted)
            && lines + In(place.step, PartsShown(cfg, ev, i + 1, place.emitted))
               == lines + In(place.step, PartsShown(cfg, ev, i, place.emitted)) +
                  In(place.step, PartShown(cfg, ev, p, emitted))
  {
    hide EndingPart, EndsRun, PartShown, EmittedBy;
  }

  lemma EndingStands(cfg: Config, ev: Event, sys: Sys, place: Place, lines: seq<Line>)
    requires Stands(cfg, sys, place, lines)
    ensures Stands(cfg, Ending(ev, sys), if ev.turnComplete then Place("", 0) else place,
                   lines + In(place.step, DeltaShown(ev.delta)))
    ensures Ending(ev, sys).st.run == sys.st.run
  {
    hide Read, Stands, Finalize;
    assert lines + In(place.step, []) == lines;
    var after := OfferDelta(ev.delta, sys);
    var shown := lines + In(place.step, DeltaShown(ev.delta));
    if ev.delta != [] {
      assert OpsOf(ev.delta) == DeltaShown(ev.delta)[0].ops;
      OfferShows(cfg, sys, place, lines, StateDelta(OpsOf(ev.delta)));
    }
    FinalizeStands(cfg, after, place, shown);
  }

  /** One event: what it shows, and where it leaves the run. */
  lemma EventShows(cfg: Config, stored: Option<Session>, ev: Event, sys: Sys, place: Place, lines: seq<Line>)
    requires NeutralConverter(cfg) && Stands(cfg, sys, place, lines)
    ensures var (next, status) := RunEvent(cfg, Quiet(), stored, ev, sys);
            var m, step := EndingPart(cfg, ev, 0), StepFor(cfg.appName, ev.author, place.step);
            if m == |PartsOf(ev)| then
              && status == Continue && next.st.run == sys.st.run
              && Stands(cfg, next, PlaceAfter(cfg, ev, place), lines + In(step, EventShown(cfg, ev, place.emitted)))
            else
              var shown := lines + In(step, PartsShown(cfg, ev, m, place.emitted));
              && Tells(next, shown + EndShown(cfg, sys.st.run, stored, ev, PartsOf(ev)[m], step))
              && (if Pauses(cfg, ev, PartsOf(ev)[m]) then status == Done && next.st.finalized
                  else status == Stop(EndFault(cfg, ev, PartsOf(ev)[m])) && !next.st.finalized)
  {
    hide Read, Stands, Tells, RunParts, Ending, ChangeStep, Send, EndsRun, Pauses, EndShown, EndFault, DeltaShown;
    hide EndingPart, StepFor;
    var begun, there := ChangeStep(cfg.appName, ev.author, sys),
        place.(step := StepFor(cfg.appName, ev.author, place.step));
    var m := EndingPart(cfg, ev, 0);
    ChangeStepStands(cfg, ev.author, sys, place, lines);
    assert lines + In(there.step, []) == lines;
    PartsStand(cfg, stored, ev, 0, begun, there, lines);
    if m == |PartsOf(ev)| {
      var mid := RunParts(cfg, Quiet(), stored, ev, 0, begun).0;
      var shown := PartsShown(cfg, ev, m, place.emitted);
      EndingStands(cfg, ev, mid, there.(emitted := EmittedUpTo(cfg, ev, m, place.emitted)),
                   lines + In(there.step, shown));
      QuietSends(Ending(ev, mid).offered);
      InAppend(there.step, shown, DeltaShown(ev.delta));
      assert lines + In(there.step, shown) + In(there.step, DeltaShown(ev.delta))
          == lines + In(there.step, shown + DeltaShown(ev.delta));
    }
  }

  /** When an event completes its turn, the step that was open closes last. */
  lemma StepClosesLast(cfg: Config, stored: Option<Session>, ev: Event, sys: Sys, place: Place, lines: seq<Line>)
    requires NeutralConverter(cfg) && Stands(cfg, sys, place, lines)
    requires ev.turnComplete && EndingPart(cfg, ev, 0) == |PartsOf(ev)|
    ensures var trace, step := RunEvent(cfg, Quiet(), stored, ev, sys).0.offered,
                               StepFor(cfg.appName, ev.author, place.step);
            step != "" ==> trace != [] && trace[|trace| - 1] == StepFinished(step)
  {
    hide Read, RunParts, ChangeStep, Send, CloseText, CloseReasoning, EndingPart, StepFor, PartsShown, In, EmittedUpTo;
    var there := place.(step := StepFor(cfg.appName, ev.author, place.step));
    var begun := ChangeStep(cfg.appName, ev.author, sys);
    ChangeStepStands(cfg, ev.author, sys, place, lines);
    NothingShownBefore(cfg, ev, there);
    assert lines + [] == lines;
    PartsStand(cfg, stored, ev, 0, begun, there, lines);
    var mid := OfferDelta(ev.delta, RunParts(cfg, Quiet(), stored, ev, 0, begun).0);
    CloseTextUnread(mid);
    CloseReasoningUnread(CloseText(mid));
  }

  lemma NothingShownBefore(cfg: Config, ev: Event, place: Place)
    ensures In(place.step, PartsShown(cfg, ev, 0, place.emitted)) == []
    ensures EmittedUpTo(cfg, ev, 0, place.emitted) == place.emitted
  {
  }

  // ----- runs

  lemma ErrorShows(fault: RunFault, sys: Sys, lines: seq<Line>)
    requires Tells(sys, lines) && !sys.st.finalized
    ensures Tells(EmitError(fault, sys), lines + ErrorShown(sys.st.run, fault)) && EmitError(fault, sys).st.finalized
  {
    hide Read, CloseText, CloseReasoning;
    CloseTextUnread(sys);
    CloseReasoningUnread(CloseText(sys));
    var closed := CloseReasoning(CloseText(sys));
    ReadSnoc(closed.offered, StepFinished(closed.st.step));
    var last := CloseStep(closed);
    ReadSnoc(last.offered, RunError(last.st.run.runId, fault));
  }

  /** The session that a lookup finds once the runner has stored this one. */
  function FoundThen(w: World, b: Backend, session: Session): Option<Session> {
    if b.configured && !w.faults(b.calls) then Some(session) else None
  }

  lemma FoundIs(w: World, b: Backend, key: SessionKey, session: Session, later: Session)
    ensures LookupOption(Get(w.faults, Put(b, key, session), key)) == FoundThen(w, b, session)
    ensures FoundThen(w, Put(b, key, session), later) == FoundThen(w, b, later)
  {
  }

  lemma LinesStep(cfg: Config, arrivals: seq<Arrival>, i: nat, lines: seq<Line>)
    requires i < EndingArrival(cfg, arrivals, 0)
    ensures arrivals[i].item.Yielded? ==>
              var ev, place := arrivals[i].item.event, PlaceAt(cfg, arrivals, i);
              && PlaceAt(cfg, arrivals, i + 1) == PlaceAfter(cfg, ev, place)
              && lines + LinesUpTo(cfg, arrivals, i + 1)
                 == lines + LinesUpTo(cfg, arrivals, i) +
                    In(StepFor(cfg.appName, ev.author, place.step), EventShown(cfg, ev, place.emitted))
    ensures arrivals[i].item.NilEvent? ==>
              && PlaceAt(cfg, arrivals, i + 1) == PlaceAt(cfg, arrivals, i)
              && LinesUpTo(cfg, arrivals, i + 1) == LinesUpTo(cfg, arrivals, i)
  {
    hide EventShown, PlaceAfter, EndingPart;
  }

  /** An event that fails, and the error sent for it. */
  lemma EventStops(cfg: Config, run: RunInfo, found: Option<Session>, ev: Event, place: Place, lines: seq<Line>,
          next: Sys, fault: RunFault)
    requires ev.errorMessage == "" && EndingPart(cfg, ev, 0) < |PartsOf(ev)| && next.st.run == run && !next.st.finalized
    requires var m, step := EndingPart(cfg, ev, 0), StepFor(cfg.appName, ev.author, place.step);
             var p := PartsOf(ev)[m];
             && !Pauses(cfg, ev, p) && fault == EndFault(cfg, ev, p)
             && Tells(next, lines + In(step, PartsShown(cfg, ev, m, place.emitted)) +
                            EndShown(cfg, run, found, ev, p, step))
    ensures Tells(EmitError(fault, next), lines + EndingShown(cfg, run, found, Yielded(ev), place))
    ensures EmitError(fault, next).st.finalized
  {
    hide Read, Tells, EmitError, PartsShown, EndShown, EndFault, Pauses, EndsRun, StepFor;
    var m, step := EndingPart(cfg, ev, 0), StepFor(cfg.appName, ev.author, place.step);
    ErrorShows(fault, next, lines + In(step, PartsShown(cfg, ev, m, place.emitted)) +
                            EndShown(cfg, run, found, ev, PartsOf(ev)[m], step));
    Grouped(lines, In(step, PartsShown(cfg, ev, m, place.emitted)), EndShown(cfg, run, found, ev, PartsOf(ev)[m], step),
            ErrorShown(run, fault));
  }

  lemma Grouped<T>(a: seq<T>, b: seq<T>, c: seq<T>, d: seq<T>)
    ensures a + b + c + d == a + (b + c + d) && a + b + c == a + (b + c + [])
  {
  }

  /** The arrival that ends the run. */
  lemma EndingArrivalShows(w: World, agent: Agent, i: nat, sys: Sys, b: Backend, place: Place, lines: seq<Line>)
    requires w.net == Quiet() && NeutralConverter(w.cfg)
    requires i < |agent.arrivals| && EndsAt(w.cfg, agent.arrivals[i].item)
    requires Stands(w.cfg, sys, place, lines)
    ensures var next, arrival := RunLoop(w, agent, i, sys, b).0, agent.arrivals[i];
            && Tells(next, lines + EndingShown(w.cfg, sys.st.run, FoundThen(w, b, arrival.session),
                                               arrival.item, place))
            && next.st.finalized
  {
    hide Read, Stands, Tells, RunEvent, EmitError, EndingPart, EventShown, PartsShown, PlaceAfter, StepFor, EndShown;
    hide EndsRun, FoundThen, Pauses, EndFault, In;
    var arrival, run := agent.arrivals[i], sys.st.run;
    StandsTells(w.cfg, sys, place, lines);
    match arrival.item
    case Failure(message) => ErrorShows(AgentFailed(message, ""), sys, lines);
    case Yielded(ev) =>
      if ev.errorMessage != "" {
        ErrorShows(AgentFailed(ev.errorMessage, ev.errorCode), sys, lines);
      } else {
        FoundIs(w, b, KeyOf(run), arrival.session, arrival.session);
        var stored := FoundThen(w, b, arrival.session);
        EventShows(w.cfg, stored, ev, sys, place, lines);
        EventKeeps(w.cfg, w.net, stored, ev, sys);
        var (next, status) := RunEvent(w.cfg, w.net, stored, ev, sys);
        if status.Stop? {
          EventStops(w.cfg, run, stored, ev, place, lines, next, status.fault);
        } else {
          EventAsks(w.cfg, run, stored, ev, place, lines);
        }
      }
  }

  lemma {:induction false} LoopShows(w: World, agent: Agent, i: nat, sys: Sys, b: Backend, lines: seq<Line>)
    requires w.net == Quiet() && NeutralConverter(w.cfg) && i <= |agent.arrivals|
    requires i <= EndingArrival(w.cfg, agent.arrivals, i) == EndingArrival(w.cfg, agent.arrivals, 0)
    requires Stands(w.cfg, sys, PlaceAt(w.cfg, agent.arrivals, i), lines + LinesUpTo(w.cfg, agent.arrivals, i))
    ensures var next, n := RunLoop(w, agent, i, sys, b).0, EndingArrival(w.cfg, agent.arrivals, 0);
            var shown := lines + LinesUpTo(w.cfg, agent.arrivals, n);
            if n == |agent.arrivals| then
              next.st.run == sys.st.run && Stands(w.cfg, next, PlaceAt(w.cfg, agent.arrivals, n), shown)
            else
              && Tells(next, shown + EndingShown(w.cfg, sys.st.run, FoundThen(w, b, agent.arrivals[n].session),
                                                 agent.arrivals[n].item, PlaceAt(w.cfg, agent.arrivals, n)))
              && next.st.finalized
    decreases |agent.arrivals| - i
  {
    hide Read, Stands, Tells, RunEvent, EmitError, EndsAt, EventShown, PlaceAfter, StepFor, EndingShown;
    hide FoundThen, LinesUpTo, PlaceAt, In;
    if i < |agent.arrivals| {
      var arrivals, run := agent.arrivals, sys.st.run;
      var place, before := PlaceAt(w.cfg, arrivals, i), lines + LinesUpTo(w.cfg, arrivals, i);
      if EndsAt(w.cfg, arrivals[i].item) {
        EndingArrivalShows(w, agent, i, sys, b, place, before);
      } else {
        var b' := Put(b, KeyOf(run), arrivals[i].session);
        var n := EndingArrival(w.cfg, arrivals, i);
        FoundIs(w, b, KeyOf(run), arrivals[i].session, arrivals[if n < |arrivals| then n else i].session);
        LinesStep(w.cfg, arrivals, i, lines);
        GoesOn(w.cfg, arrivals[i].item);
        if arrivals[i].item.NilEvent? {
          LoopShows(w, agent, i + 1, sys, b', lines);
        } else {
          var ev := arrivals[i].item.event;
          var stored := LookupOption(Get(w.faults, b', KeyOf(run)));
          EventShows(w.cfg, stored, ev, sys, place, before);
          LoopShows(w, agent, i + 1, RunEvent(w.cfg, w.net, stored, ev, sys).0, b', lines);
        }
      }
    }
  }

  lemma GoesOn(cfg: Config, item: Item)
    requires !EndsAt(cfg, item)
    ensures !item.Failure?
    ensures item.Yielded? ==> item.event.errorMessage == "" && EndingPart(cfg, item.event, 0) == |PartsOf(item.event)|
  {
  }

  lemma EventAsks(cfg: Config, run: RunInfo, found: Option<Session>, ev: Event, place: Place, lines: seq<Line>)
    requires ev.errorMessage == "" && EndingPart(cfg, ev, 0) < |PartsOf(ev)|
    requires Pauses(cfg, ev, PartsOf(ev)[EndingPart(cfg, ev, 0)])
    ensures var m, step := EndingPart(cfg, ev, 0), StepFor(cfg.appName, ev.author, place.step);
            lines + In(step, PartsShown(cfg, ev, m, place.emitted)) +
            EndShown(cfg, run, found, ev, PartsOf(ev)[m], step)
            == lines + EndingShown(cfg, run, found, Yielded(ev), place)
  {
    hide PartsShown, EndShown, Pauses, EndsRun, StepFor;
    var m, step := EndingPart(cfg, ev, 0), StepFor(cfg.appName, ev.author, place.step);
    Grouped(lines, In(step, PartsShown(cfg, ev, m, place.emitted)),
            EndShown(cfg, run, found, ev, PartsOf(ev)[m], step), []);
  }
}
