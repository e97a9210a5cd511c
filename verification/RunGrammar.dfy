/** The stream of every run is in the AG-UI grammar. */
module RunGrammar {
  import opened Values
  import opened Adk
  import opened Protocol
  import opened Launcher
  import opened Emission
  import opened Sessions
  import opened Grammar
  import opened StreamSpec
  import opened RunSpec
  import opened Outcomes

  /** What the stream state knows about the trace: exactly what is open. */
  ghost predicate Tracks(cfg: Config, sys: Sys) {
    var at := Follow(sys.offered);
    && at.Some? && at.value.Open? && at.value.tool.NoCall?
    && sys.st.text == at.value.text
    && sys.st.phase == at.value.phase
    && sys.st.thought == at.value.thought
    && sys.st.step == at.value.step
    && sys.st.lastText == at.value.last
    && (forall n :: n >= sys.st.nextId ==> cfg.freshId(n) !in at.value.used)
    && !sys.st.finalized && sys.st.interrupts == []
  }

  /** A reasoning phase, its message and emitted reasoning come and go together, and
      never beside an open text message. */
  predicate Coherent(st: St) {
    && (st.phase != "" <==> st.thought != "")
    && (st.phase != "" <==> st.emittedLen > 0)
    && (st.phase != "" ==> st.text == "")
  }

  ghost predicate Good(cfg: Config, sys: Sys) {
    Tracks(cfg, sys) && Coherent(sys.st)
  }

  /** Stopped inside a tool call: the arguments could not be encoded. */
  ghost predicate Dangling(sys: Sys) {
    var at := Follow(sys.offered);
    && at.Some? && at.value.Open? && at.value.tool.Started?
    && sys.st.text == "" == at.value.text
    && sys.st.phase == "" == at.value.phase
    && sys.st.thought == "" == at.value.thought
    && sys.st.step == at.value.step
    && !sys.st.finalized && sys.st.interrupts == []
  }

  predicate NothingLeft(st: St) {
    st.text == "" && st.phase == "" && st.thought == "" && st.step == ""
  }

  /** The stream is complete and its last event is `last`. */
  ghost predicate Ended(sys: Sys, clean: bool, last: AgEvent) {
    && Follow(sys.offered) == Some(Closed(clean)) && sys.st.finalized && NothingLeft(sys.st)
    && sys.offered != [] && sys.offered[|sys.offered| - 1] == last
  }

  ghost predicate EndedInError(sys: Sys, fault: RunFault) {
    Ended(sys, fault != ArgsMarshal, RunError(sys.st.run.runId, fault)) && sys.st.interrupts == []
  }

  function Finished(st: St): AgEvent {
    RunFinished(st.run.threadId, st.run.runId, if st.interrupts == [] then Success else Interrupted(st.interrupts))
  }

  ghost predicate EndedInInterrupt(sys: Sys) {
    Ended(sys, true, Finished(sys.st)) && |sys.st.interrupts| == 1
  }

  // ----- one operation at a time

  lemma CloseTextTracks(cfg: Config, sys: Sys)
    requires Tracks(cfg, sys)
    ensures Tracks(cfg, CloseText(sys)) && CloseText(sys).st.text == ""
  {
    FollowSnoc(sys.offered, TextEnd(sys.st.text));
  }

  lemma CloseThoughtTracks(cfg: Config, sys: Sys)
    requires Tracks(cfg, sys)
    ensures Tracks(cfg, CloseThought(sys)) && CloseThought(sys).st.thought == ""
  {
    FollowSnoc(sys.offered, ReasoningMessageEnd(sys.st.thought));
  }

  lemma ClosePhaseTracks(cfg: Config, sys: Sys)
    requires Tracks(cfg, sys) && sys.st.thought == ""
    ensures Tracks(cfg, ClosePhase(sys)) && ClosePhase(sys).st.phase == "" == ClosePhase(sys).st.thought
  {
    FollowSnoc(sys.offered, ReasoningEnd(sys.st.phase));
  }

  lemma CloseReasoningTracks(cfg: Config, sys: Sys)
    requires Tracks(cfg, sys)
    ensures Tracks(cfg, CloseReasoning(sys))
    ensures CloseReasoning(sys).st.phase == "" == CloseReasoning(sys).st.thought && CloseReasoning(sys).st.emittedLen == 0
    ensures CloseReasoning(sys).st.text == sys.st.text && CloseReasoning(sys).st.step == sys.st.step
  {
    hide Follow, Next;
    CloseThoughtTracks(cfg, sys);
    ClosePhaseTracks(cfg, CloseThought(sys));
  }

  lemma CloseStepTracks(cfg: Config, sys: Sys)
    requires Tracks(cfg, sys)
    ensures Tracks(cfg, CloseStep(sys)) && CloseStep(sys).st.step == ""
  {
    FollowSnoc(sys.offered, StepFinished(sys.st.step));
  }

  lemma FinalizeTracks(cfg: Config, sys: Sys)
    requires Good(cfg, sys)
    ensures Good(cfg, Finalize(sys)) && NothingLeft(Finalize(sys).st)
  {
    CloseTextTracks(cfg, sys);
    CloseReasoningTracks(cfg, CloseText(sys));
    CloseStepTracks(cfg, CloseReasoning(CloseText(sys)));
  }

  lemma StartStepTracks(cfg: Config, author: string, sys: Sys)
    requires Good(cfg, sys) && sys.st.step == "" && author != ""
    ensures Good(cfg, Offer(sys, StepStarted(author)).(st := sys.st.(step := author)))
  {
    FollowSnoc(sys.offered, StepStarted(author));
  }

  lemma ChangeStepTracks(cfg: Config, author: string, sys: Sys)
    requires Good(cfg, sys)
    ensures Good(cfg, ChangeStep(cfg.appName, author, sys))
  {
    hide Tracks;
    CloseStepTracks(cfg, sys);
    if author != "" && author != sys.st.step && author != cfg.appName {
      StartStepTracks(cfg, author, CloseStep(sys));
    }
  }

  lemma OpenPhaseTracks(cfg: Config, sys: Sys)
    requires Tracks(cfg, sys) && FreshIds(cfg) && sys.st.text == ""
    ensures Tracks(cfg, OpenPhase(cfg, sys)) && OpenPhase(cfg, sys).st.phase != "" == OpenPhase(cfg, sys).st.text
  {
    FollowSnoc(sys.offered, ReasoningStart(cfg.freshId(sys.st.nextId)));
  }

  lemma OpenThoughtTracks(cfg: Config, sys: Sys)
    requires Tracks(cfg, sys) && FreshIds(cfg) && sys.st.phase != ""
    ensures Tracks(cfg, OpenThought(cfg, sys)) && OpenThought(cfg, sys).st.thought != ""
  {
    FollowSnoc(sys.offered, ReasoningMessageStart(cfg.freshId(sys.st.nextId)));
  }

  lemma OpenTextTracks(cfg: Config, sys: Sys)
    requires Tracks(cfg, sys) && FreshIds(cfg) && sys.st.phase == ""
    ensures Tracks(cfg, OpenText(cfg, sys)) && OpenText(cfg, sys).st.text != ""
  {
    FollowSnoc(sys.offered, TextStart(cfg.freshId(sys.st.nextId)));
  }

  lemma ContentTracks(cfg: Config, ev: AgEvent, sys: Sys)
    requires Tracks(cfg, sys)
    requires || (ev.TextContent? && ev.id == sys.st.text != "" && ev.delta != "")
             || (ev.ReasoningContent? && ev.id == sys.st.thought != "" && ev.delta != "")
    ensures Tracks(cfg, Offer(sys, ev))
  {
    FollowSnoc(sys.offered, ev);
  }

  lemma ThoughtTracks(cfg: Config, text: string, sys: Sys)
    requires Good(cfg, sys) && FreshIds(cfg)
    ensures Good(cfg, Thought(cfg, text, sys))
  {
    if |text| > sys.st.emittedLen {
      var started := sys.(st := sys.st.(emittedLen := |text|));
      assert Tracks(cfg, started);
      hide Tracks;
      CloseTextTracks(cfg, started);
      var closed := CloseText(started);
      OpenPhaseTracks(cfg, closed);
      OpenThoughtTracks(cfg, OpenPhase(cfg, closed));
      var open := OpenThought(cfg, OpenPhase(cfg, closed));
      ContentTracks(cfg, ReasoningContent(open.st.thought, text[sys.st.emittedLen..]), open);
    }
  }

  lemma TextTracks(cfg: Config, partial: bool, text: string, sys: Sys)
    requires Good(cfg, sys) && FreshIds(cfg) && text != ""
    ensures Good(cfg, Text(cfg, partial, text, sys))
  {
    hide Tracks;
    CloseReasoningTracks(cfg, sys);
    var closed := CloseReasoning(sys);
    OpenTextTracks(cfg, closed);
    var open := OpenText(cfg, closed);
    ContentTracks(cfg, TextContent(open.st.text, text), open);
  }

  lemma StartCallTracks(cfg: Config, id: string, name: string, sys: Sys)
    requires Good(cfg, sys) && sys.st.text == "" == sys.st.phase
    ensures Dangling(Offer(sys, ToolCallStart(id, name, ParentOf(sys.st))))
    ensures Follow(Offer(sys, ToolCallStart(id, name, ParentOf(sys.st))).offered)
         == Some(Follow(sys.offered).value.(tool := ToolCallPhase.Started(id)))
  {
    FollowSnoc(sys.offered, ToolCallStart(id, name, ParentOf(sys.st)));
  }

  lemma ArgsTrack(trace: seq<AgEvent>, id: string, arguments: string)
    requires Follow(trace).Some? && Follow(trace).value.Open? && Follow(trace).value.tool == ToolCallPhase.Started(id)
    ensures Follow(trace + [ToolCallArgs(id, arguments)]) == Some(Follow(trace).value.(tool := WithArgs(id)))
  {
    FollowSnoc(trace, ToolCallArgs(id, arguments));
  }

  lemma CallEndTracks(trace: seq<AgEvent>, id: string)
    requires Follow(trace).Some? && Follow(trace).value.Open? && Follow(trace).value.tool == WithArgs(id)
    ensures Follow(trace + [ToolCallEnd(id)]) == Some(Follow(trace).value.(tool := NoCall))
  {
    FollowSnoc(trace, ToolCallEnd(id));
  }

  lemma CallTracks(cfg: Config, call: FunctionCall, sys: Sys)
    requires Good(cfg, sys) && sys.st.text == "" == sys.st.phase
    ensures var (next, status) := Call(cfg, call, sys);
            && next.st == sys.st && !status.Done?
            && (status.Continue? ==> Good(cfg, next))
            && (status.Stop? ==> status.fault.ArgsMarshal? && Dangling(next))
  {
    hide Follow;
    StartCallTracks(cfg, call.id, call.name, sys);
    var started := Offer(sys, ToolCallStart(call.id, call.name, ParentOf(sys.st)));
    var args := cfg.marshal(call.args);
    if args.Some? {
      ArgsTrack(started.offered, call.id, args.value);
      CallEndTracks(started.offered + [ToolCallArgs(call.id, args.value)], call.id);
      var done := Follow(sys.offered).value;
      assert done.(tool := NoCall) == done;
    }
  }

  lemma OfferPlainTracks(cfg: Config, ev: AgEvent, sys: Sys)
    requires Good(cfg, sys)
    requires ev.StateSnapshot? || ev.StateDelta? || ev.MessagesSnapshot? || Neutral(ev)
    ensures Good(cfg, Offer(sys, ev))
  {
    FollowSnoc(sys.offered, ev);
  }

  lemma BoundaryTracks(cfg: Config, stored: Option<Session>, sys: Sys)
    requires Good(cfg, sys)
    ensures var next := BoundarySnapshots(cfg, stored, sys); Good(cfg, next) && next.st == sys.st
  {
    hide Follow, Tracks;
    var run := sys.st.run;
    if stored.Some? {
      var state := Snapshot(stored, run.reqState);
      if state != map[] {
        OfferPlainTracks(cfg, StateSnapshot(state), sys);
      }
      var mid := OfferState(state, sys);
      var messages := Convert.ConvertSession(HistoryConfig(cfg), stored.value.history);
      if messages.Some? {
        OfferPlainTracks(cfg, MessagesSnapshot(messages.value), mid);
      }
    } else {
      OfferPlainTracks(cfg, StateSnapshot(Snapshot(None, run.reqState)), sys);
    }
  }

  lemma InterruptingTracks(cfg: Config, stored: Option<Session>, call: FunctionCall, sys: Sys)
    requires Good(cfg, sys)
    ensures var (next, status) := Interrupting(cfg, stored, call, sys); Reached(cfg, next, status)
  {
    hide Follow, Tracks, Next;
    var original := cfg.original(call);
    if original.Some? {
      FinalizeTracks(cfg, sys);
      CallTracks(cfg, original.value, Finalize(sys));
      var (proposed, status) := Call(cfg, original.value, Finalize(sys));
      if status.Continue? {
        BoundaryTracks(cfg, stored, proposed);
        FinishTracks(cfg, InterruptFor(cfg, call, original.value), BoundarySnapshots(cfg, stored, proposed));
      }
    }
  }

  lemma FinishTracks(cfg: Config, interrupt: Interrupt, sys: Sys)
    requires Good(cfg, sys) && NothingLeft(sys.st)
    ensures EndedInInterrupt(FinishInterrupted(interrupt, sys))
  {
    FollowSnoc(sys.offered, RunFinished(sys.st.run.threadId, sys.st.run.runId, Interrupted([interrupt])));
    assert sys.st.interrupts + [interrupt] == [interrupt];
  }

  /** Where a part or an event can leave the run. */
  ghost predicate Reached(cfg: Config, sys: Sys, status: Status) {
    match status
    case Continue => Good(cfg, sys)
    case Done => EndedInInterrupt(sys)
    case Stop(ArgsMarshal) => Dangling(sys)
    case Stop(_) => Good(cfg, sys)
  }

  lemma CallPartTracks(cfg: Config, stored: Option<Session>, call: FunctionCall, sys: Sys)
    requires Good(cfg, sys)
    ensures var (next, status) := CallPart(cfg, stored, call, sys); Reached(cfg, next, status)
  {
    hide Follow, Next, Call, Interrupting, CloseReasoning;
    CloseTextTracks(cfg, sys);
    CloseReasoningTracks(cfg, CloseText(sys));
    var closed := CloseReasoning(CloseText(sys));
    if call.name == CONFIRMATION_NAME {
      InterruptingTracks(cfg, stored, call, closed);
    } else {
      CallTracks(cfg, call, closed);
      var (next, status) := Call(cfg, call, closed);
      assert Reached(cfg, next, status);
      assert CallPart(cfg, stored, call, sys) == (next, status);
    }
  }

  lemma ResponseTracks(cfg: Config, response: FunctionResponse, sys: Sys)
    requires Good(cfg, sys) && FreshIds(cfg)
    ensures var (next, status) := ResponsePart(cfg, response, sys); Reached(cfg, next, status)
  {
    var json := cfg.marshal(response.response);
    if json.Some? {
      FollowSnoc(sys.offered, ToolCallResult(cfg.freshId(sys.st.nextId), response.id, json.value));
    }
  }

  lemma {:induction false} NeutralAllTracks(cfg: Config, evs: seq<AgEvent>, sys: Sys)
    requires Good(cfg, sys) && forall i :: 0 <= i < |evs| ==> Neutral(evs[i])
    ensures Good(cfg, OfferAll(sys, evs))
    decreases |evs|
  {
    hide Follow, Tracks;
    if evs == [] {
      assert OfferAll(sys, evs) == sys;
    } else {
      NeutralAllTracks(cfg, evs[1..], Offer(sys, evs[0])) by { OfferPlainTracks(cfg, evs[0], sys); }
      assert OfferAll(Offer(sys, evs[0]), evs[1..]).offered == OfferAll(sys, evs).offered;
    }
  }

  lemma OnePartTracks(cfg: Config, stored: Option<Session>, ev: Event, part: Part, sys: Sys)
    requires Good(cfg, sys) && FreshIds(cfg) && NeutralConverter(cfg)
    ensures var (next, status) := OnePart(cfg, stored, ev, part, sys); Reached(cfg, next, status)
  {
    hide Tracks, Thought, Text, CallPart, ResponsePart;
    if part.Part? {
      if part.thought && part.text != "" {
        ThoughtTracks(cfg, part.text, sys);
      } else if part.text != "" {
        TextTracks(cfg, ev.partial, part.text, sys);
      } else if part.call.Some? {
        CallPartTracks(cfg, stored, part.call.value, sys);
      } else if part.response.Some? {
        ResponseTracks(cfg, part.response.value, sys);
      }
      if cfg.converter.Some? && cfg.converter.value(ev, part).Handled? {
        NeutralAllTracks(cfg, cfg.converter.value(ev, part).events, sys);
      }
    }
  }

  // ----- whole events and whole runs, with an emitter that never fails

  lemma {:induction false} PartsTrack(cfg: Config, stored: Option<Session>, ev: Event, i: nat, sys: Sys)
    requires i <= |PartsOf(ev)|
    requires Good(cfg, sys) && FreshIds(cfg) && NeutralConverter(cfg)
    ensures var (next, status) := RunParts(cfg, Quiet(), stored, ev, i, sys); Reached(cfg, next, status)
    decreases |PartsOf(ev)| - i
  {
    hide Tracks, OnePart;
    QuietSends(sys.offered);
    if i < |PartsOf(ev)| {
      OnePartTracks(cfg, stored, ev, PartsOf(ev)[i], sys);
      var (next, status) := OnePart(cfg, stored, ev, PartsOf(ev)[i], sys);
      if status.Continue? {
        PartsTrack(cfg, stored, ev, i + 1, next);
      }
    }
  }

  lemma EndingTracks(cfg: Config, ev: Event, sys: Sys)
    requires Good(cfg, sys)
    ensures Good(cfg, Ending(ev, sys))
  {
    hide Tracks, Finalize;
    OfferPlainTracks(cfg, StateDelta(OpsOf(ev.delta)), sys);
    FinalizeTracks(cfg, OfferDelta(ev.delta, sys));
  }

  lemma EventTracks(cfg: Config, stored: Option<Session>, ev: Event, sys: Sys)
    requires Good(cfg, sys) && FreshIds(cfg) && NeutralConverter(cfg)
    ensures var (next, status) := RunEvent(cfg, Quiet(), stored, ev, sys); Reached(cfg, next, status)
  {
    hide Tracks, RunParts, ChangeStep, Ending;
    ChangeStepTracks(cfg, ev.author, sys);
    var begun := ChangeStep(cfg.appName, ev.author, sys);
    PartsTrack(cfg, stored, ev, 0, begun);
    var (mid, status) := RunParts(cfg, Quiet(), stored, ev, 0, begun);
    if status.Continue? {
      EndingTracks(cfg, ev, mid);
      QuietSends(Ending(ev, mid).offered);
    }
  }

  /** After an event that completes its turn nothing is open, whatever was. */
  lemma TurnEndCloses(cfg: Config, stored: Option<Session>, ev: Event, sys: Sys)
    requires Good(cfg, sys) && FreshIds(cfg) && NeutralConverter(cfg) && ev.turnComplete
    requires RunEvent(cfg, Quiet(), stored, ev, sys).1.Continue?
    ensures var trace := RunEvent(cfg, Quiet(), stored, ev, sys).0.offered;
            && Follow(trace).Some? && Follow(trace).value.Open? && Follow(trace).value.tool.NoCall?
            && NothingOpen(Follow(trace).value)
  {
    hide Good, RunParts, ChangeStep, Finalize, Follow, Next;
    ChangeStepTracks(cfg, ev.author, sys);
    var begun := ChangeStep(cfg.appName, ev.author, sys);
    PartsTrack(cfg, stored, ev, 0, begun);
    var mid := RunParts(cfg, Quiet(), stored, ev, 0, begun).0;
    OfferPlainTracks(cfg, StateDelta(OpsOf(ev.delta)), mid);
    FinalizeTracks(cfg, OfferDelta(ev.delta, mid));
    TracksNothing(cfg, Finalize(OfferDelta(ev.delta, mid)));
  }

  lemma TracksNothing(cfg: Config, sys: Sys)
    requires Good(cfg, sys) && NothingLeft(sys.st)
    ensures Follow(sys.offered).Some? && Follow(sys.offered).value.Open? && Follow(sys.offered).value.tool.NoCall?
    ensures NothingOpen(Follow(sys.offered).value)
  {
  }

  lemma ErrorEnds(cfg: Config, fault: RunFault, sys: Sys)
    requires Good(cfg, sys) && fault != ArgsMarshal
    ensures EndedInError(EmitError(fault, sys), fault)
  {
    FinalizeTracks(cfg, sys);
    var closed := Finalize(sys);
    FollowSnoc(closed.offered, RunError(closed.st.run.runId, fault));
  }

  lemma DanglingErrorEnds(sys: Sys)
    requires Dangling(sys)
    ensures EndedInError(EmitError(ArgsMarshal, sys), ArgsMarshal)
  {
    FollowSnoc(sys.offered, StepFinished(sys.st.step));
    var closed := Finalize(sys);
    FollowSnoc(closed.offered, RunError(closed.st.run.runId, ArgsMarshal));
  }

  lemma StopEnds(cfg: Config, fault: RunFault, sys: Sys)
    requires Reached(cfg, sys, Stop(fault))
    ensures EndedInError(EmitError(fault, sys), fault)
  {
    hide Tracks, Dangling, EndedInError, EmitError;
    if fault == ArgsMarshal {
      DanglingErrorEnds(sys);
    } else {
      ErrorEnds(cfg, fault, sys);
    }
  }

  /** Where the event loop can leave the run. */
  ghost predicate LoopReached(cfg: Config, sys: Sys, error: Option<RunFault>) {
    if error.Some? then EndedInError(sys, error.value)
    else Good(cfg, sys) || EndedInInterrupt(sys)
  }

  lemma {:induction false} LoopTracks(w: World, agent: Agent, i: nat, sys: Sys, b: Backend)
    requires i <= |agent.arrivals| && w.net == Quiet()
    requires Good(w.cfg, sys) && FreshIds(w.cfg) && NeutralConverter(w.cfg)
    ensures var (next, _, error) := RunLoop(w, agent, i, sys, b); LoopReached(w.cfg, next, error)
    decreases |agent.arrivals| - i
  {
    hide Good, EndedInError, EndedInInterrupt, RunEvent, EmitError;
    if i < |agent.arrivals| {
      var b' := Put(b, KeyOf(sys.st.run), agent.arrivals[i].session);
      match agent.arrivals[i].item
      case Failure(message) => ErrorEnds(w.cfg, AgentFailed(message, ""), sys);
      case NilEvent => LoopTracks(w, agent, i + 1, sys, b');
      case Yielded(ev) =>
        if ev.errorMessage != "" {
          ErrorEnds(w.cfg, AgentFailed(ev.errorMessage, ev.errorCode), sys);
        } else {
          var stored := LookupOption(Get(w.faults, b', KeyOf(sys.st.run)));
          EventTracks(w.cfg, stored, ev, sys);
          var (next, status) := RunEvent(w.cfg, w.net, stored, ev, sys);
          match status
          case Stop(fault) => StopEnds(w.cfg, fault, next);
          case Done =>
          case Continue => LoopTracks(w, agent, i + 1, next, b');
        }
    }
  }

  /** The stream is complete; its terminal event says how the request ended; it ends inside
      a tool call only when that call's arguments could not be encoded. A handler error
      after RunFinished can only be a failure to store the pending interrupts. */
  ghost predicate Complete(o: Outcome) {
    var st := o.sys.st;
    || (o.error.Some? && EndedInError(o.sys, o.error.value))
    || ((o.error.None? || o.error == Some(SessionUnavailable)) && Ended(o.sys, true, Finished(st)))
  }

  lemma ConcludeEnds(w: World, sys: Sys, b: Backend, error: Option<RunFault>, start: Option<Start>)
    requires LoopReached(w.cfg, sys, error)
    ensures Complete(Conclude(w, sys, b, error, start))
  {
    hide Follow, Next;
    if !sys.st.finalized {
      FinalizeTracks(w.cfg, sys);
      FinishOnceEnds(w.cfg, Finalize(sys));
    } else {
      assert FinishOnce(Finalize(sys)).offered == sys.offered;
    }
  }

  lemma FinishOnceEnds(cfg: Config, sys: Sys)
    requires Good(cfg, sys) && NothingLeft(sys.st)
    ensures Ended(FinishOnce(sys), true, Finished(sys.st)) && FinishOnce(sys).st == sys.st.(finalized := true)
  {
    FollowSnoc(sys.offered, RunFinished(sys.st.run.threadId, sys.st.run.runId, Success));
  }

  lemma LaunchEnds(w: World, req: Request, agent: Agent, session: Option<Session>, sys: Sys, b: Backend)
    requires w.net == Quiet() && Good(w.cfg, sys) && FreshIds(w.cfg) && NeutralConverter(w.cfg)
    ensures Complete(Launch(w, req, agent, session, sys, b))
  {
    hide Good, EndedInError, EmitError, RunLoop, Conclude, LoopReached;
    var state := Snapshot(session, StateOf(req));
    OfferPlainTracks(w.cfg, StateSnapshot(state), sys);
    var ready := OfferState(state, sys);
    match TurnOf(req)
    case Err(fault) => ErrorEnds(w.cfg, fault, ready);
    case Ok(turn) =>
      if agent.startError.Some? {
        ErrorEnds(w.cfg, AgentFailed(agent.startError.value, ""), ready);
      } else {
        LoopTracks(w, agent, 0, ready, b);
        var (last, b', error) := RunLoop(w, agent, 0, ready, b);
        ConcludeEnds(w, last, b', error, Some(Start(sys.st.run.userId, sys.st.run.threadId, turn, StateOf(req))));
      }
  }

  lemma AdmitEnds(w: World, userId: string, req: Request, agent: Agent, sys: Sys, b: Backend)
    requires w.net == Quiet() && Good(w.cfg, sys) && FreshIds(w.cfg) && NeutralConverter(w.cfg)
    ensures Complete(Admit(w, userId, req, agent, sys, b))
  {
    hide Follow, EndedInError, EmitError, Launch, Ensured, PendingOf;
    ErrorEnds(w.cfg, PendingCorrupt, sys);
    ErrorEnds(w.cfg, ResumeRejected, sys);
    var admitted := sys.(st := sys.st.(run := sys.st.run.(userId := userId, reqState := StateOf(req))));
    assert Good(w.cfg, admitted);
    ErrorEnds(w.cfg, SessionUnavailable, admitted);
    var (b', session) := Ensured(w.faults, Called(b), SessionKey(userId, sys.st.run.threadId), StateOf(req));
    if session.Some? {
      LaunchEnds(w, req, agent, session.value, admitted, b');
    }
  }

  lemma StartTracks(cfg: Config, run: RunInfo)
    ensures Good(cfg, Offer(Sys(Initial(run), []), RunStarted(run.threadId, run.runId)))
  {
    FollowSnoc([], RunStarted(run.threadId, run.runId));
  }

  /** For every request, agent, session service and pending state: the stream a run offers
      is complete and in the AG-UI grammar, under the ids the run was started with. */
  lemma RunIsInGrammar(w: World, run: RunInfo, userId: string, req: Request, agent: Agent, b: Backend)
    requires w.net == Quiet() && FreshIds(w.cfg) && NeutralConverter(w.cfg)
    ensures var o := Handle(w, run, userId, req, agent, b);
            Complete(o) && o.sys.st.run.threadId == run.threadId && o.sys.st.run.runId == run.runId
  {
    hide Admit, Complete, Good, Send;
    RunKeepsIds(w, run, userId, req, agent, b);
    var sys := Offer(Sys(Initial(run), []), RunStarted(run.threadId, run.runId));
    StartTracks(w.cfg, run);
    QuietSends(sys.offered);
    AdmitEnds(w, userId, req, agent, sys, b);
  }
}
