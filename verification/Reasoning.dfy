/** Reasoning reconstruction for every run, however it ends and whatever converter it has. */
module Reasoning {
  import opened Values
  import opened Adk
  import opened Protocol
  import opened Launcher
  import opened Emission
  import opened Sessions
  import opened Convert
  import opened StreamSpec
  import opened RunSpec
  import opened Halting
  import opened Outcomes
  import opened Projections
  import opened Agreement

  // ----- what of an agent's events reaches the stream as thought, text or call

  /** The parts of an event before the one that ends the run, without those taken over. */
  function HeededParts(cfg: Config, ev: Event): seq<Part> {
    Untaken(cfg.converter, ev, PartsOf(ev)[..EndingPart(cfg, ev, 0)])
  }

  function Heeded(cfg: Config, ev: Event): Event {
    ev.(content := Some(Content("", HeededParts(cfg, ev))))
  }

  function HeededAt(cfg: Config, arrival: Arrival): seq<Event> {
    if arrival.item.Yielded? && arrival.item.event.errorMessage == "" then [Heeded(cfg, arrival.item.event)] else []
  }

  function HeededAll(cfg: Config, arrivals: seq<Arrival>): seq<Event> {
    if arrivals == [] then []
    else HeededAll(cfg, arrivals[..|arrivals| - 1]) + HeededAt(cfg, arrivals[|arrivals| - 1])
  }

  /** Arrivals i.. of a run up to and including the one that ends it. */
  function Reached(cfg: Config, arrivals: seq<Arrival>, i: nat): (n: nat)
    requires i <= |arrivals|
    ensures i <= n <= |arrivals|
  {
    var n := EndingArrival(cfg, arrivals, i);
    if n < |arrivals| then n + 1 else n
  }

  /** The events of a run as far as it goes. */
  function HeededBy(cfg: Config, agent: Agent): seq<Event> {
    if agent.startError.Some? then []
    else HeededAll(cfg, agent.arrivals[..Reached(cfg, agent.arrivals, 0)])
  }

  // ----- parts

  /** The part that ends the run streams no further thought. */
  lemma EndingPartSilent(cfg: Config, stored: Option<Session>, ev: Event, p: Part, sys: Sys)
    requires EndsRun(cfg, ev, p)
    ensures Bubbles(OnePart(cfg, stored, ev, p, sys).0.offered) == Bubbles(sys.offered)
  {
    hide OfStream, Bubbles, CloseText, CloseReasoning, Interrupting, Thought, Text;
    if IsCall(p) {
      CloseTextSilent(sys);
      CloseReasoningSilent(CloseText(sys));
      var closed := CloseReasoning(CloseText(sys));
      InterruptingSilent(cfg, stored, p.call.value, closed);
      OfferAdds(closed, ToolCallStart(p.call.value.id, p.call.value.name, ParentOf(closed.st)));
    }
  }

  lemma CallSilent(cfg: Config, call: FunctionCall, sys: Sys)
    ensures Bubbles(Call(cfg, call, sys).0.offered) == Bubbles(sys.offered)
  {
    hide OfStream, Bubbles;
    var start := ToolCallStart(call.id, call.name, ParentOf(sys.st));
    OfferAdds(sys, start);
    if cfg.marshal(call.args).Some? {
      var args := ToolCallArgs(call.id, cfg.marshal(call.args).value);
      OfferAdds(Offer(sys, start), args);
      OfferAdds(Offer(Offer(sys, start), args), ToolCallEnd(call.id));
    }
  }

  lemma SnapshotsSilent(cfg: Config, stored: Option<Session>, sys: Sys)
    ensures Bubbles(BoundarySnapshots(cfg, stored, sys).offered) == Bubbles(sys.offered)
  {
    hide OfStream, Bubbles, Snapshot;
    var shown := OfferState(Snapshot(stored, sys.st.run.reqState), sys);
    OfferAdds(sys, StateSnapshot(Snapshot(stored, sys.st.run.reqState)));
    if stored.Some? {
      var messages := ConvertSession(HistoryConfig(cfg), stored.value.history);
      if messages.Some? {
        OfferAdds(shown, MessagesSnapshot(messages.value));
      }
    }
  }

  lemma InterruptingSilent(cfg: Config, stored: Option<Session>, call: FunctionCall, sys: Sys)
    ensures Bubbles(Interrupting(cfg, stored, call, sys).0.offered) == Bubbles(sys.offered)
  {
    hide OfStream, Bubbles, Finalize, Call, BoundarySnapshots;
    var original := cfg.original(call);
    if original.Some? {
      FinalizeSilent(sys);
      CallSilent(cfg, original.value, Finalize(sys));
      var proposed := Call(cfg, original.value, Finalize(sys)).0;
      SnapshotsSilent(cfg, stored, proposed);
      var shown := BoundarySnapshots(cfg, stored, proposed);
      var interrupt := InterruptFor(cfg, call, original.value);
      OfferAdds(shown, RunFinished(shown.st.run.threadId, shown.st.run.runId, Interrupted([interrupt])));
    }
  }

  // ----- events

  lemma {:induction false} PartsTune(cfg: Config, stored: Option<Session>, ev: Event, i: nat, sys: Sys, h: Heard)
    requires i <= |PartsOf(ev)| && FreshIds(cfg) && NeutralConverter(cfg)
    requires ContinuesParts(ev.partial, Untaken(cfg.converter, ev, PartsOf(ev)[..EndingPart(cfg, ev, i)]), h)
    requires InTune(sys, HearParts(ev.partial, Untaken(cfg.converter, ev, PartsOf(ev)[..i]), h), true)
    ensures var (next, m) := (RunParts(cfg, Quiet(), stored, ev, i, sys).0, EndingPart(cfg, ev, i));
            var heard := HearParts(ev.partial, Untaken(cfg.converter, ev, PartsOf(ev)[..m]), h);
            if m == |PartsOf(ev)| then InTune(next, heard, true) else Bubbles(next.offered) == AllBubbles(heard)
    decreases |PartsOf(ev)| - i
  {
    hide OfStream, Bubbles, OnePart, Send, EndsRun, Taken, Untaken, HearParts, ContinuesParts, Hear, Continues;
    QuietSends(sys.offered);
    var parts := PartsOf(ev);
    if i < |parts| {
      PartEnds(cfg, stored, ev, parts[i], sys);
      if EndsRun(cfg, ev, parts[i]) {
        EndingPartSilent(cfg, stored, ev, parts[i], sys);
      } else {
        NextPartHeard(cfg, stored, ev, i, EndingPart(cfg, ev, i), sys, h, true);
        PartsTune(cfg, stored, ev, i + 1, OnePart(cfg, stored, ev, parts[i], sys).0, h);
      }
    }
  }

  lemma EventTunes(cfg: Config, stored: Option<Session>, ev: Event, sys: Sys, h: Heard)
    requires FreshIds(cfg) && NeutralConverter(cfg) && InTune(sys, h, true)
    requires ContinuesParts(ev.partial, HeededParts(cfg, ev), h)
    ensures var next, heard := RunEvent(cfg, Quiet(), stored, ev, sys).0, HearEvent(Heeded(cfg, ev), h);
            if EndingPart(cfg, ev, 0) == |PartsOf(ev)| then InTune(next, heard, true)
            else Bubbles(next.offered) == AllBubbles(heard)
  {
    hide OfStream, Bubbles, RunParts, Ending, ChangeStep, Send, HearParts, ContinuesParts;
    ChangeStepSilent(cfg.appName, ev.author, sys);
    var begun := ChangeStep(cfg.appName, ev.author, sys);
    assert Untaken(cfg.converter, ev, PartsOf(ev)[..0]) == [];
    NoPartsHeard(ev.partial, h);
    PartsTune(cfg, stored, ev, 0, begun, h);
    PartsEnd(cfg, stored, ev, 0, begun);
    var (mid, status) := RunParts(cfg, Quiet(), stored, ev, 0, begun);
    if status.Continue? {
      EndingHeard(ev, mid, HearParts(ev.partial, HeededParts(cfg, ev), h), true);
    }
  }

  lemma NoPartsHeard(partial: bool, h: Heard)
    ensures HearParts(partial, [], h) == h
  {
  }

  // ----- runs

  lemma ErrorSilent(fault: RunFault, sys: Sys)
    ensures Bubbles(EmitError(fault, sys).offered) == Bubbles(sys.offered)
  {
    hide OfStream, Bubbles, Finalize;
    FinalizeSilent(sys);
    OfferAdds(Finalize(sys), RunError(Finalize(sys).st.run.runId, fault));
  }

  lemma ConcludeAddsNoThought(w: World, sys: Sys, b: Backend, error: Option<RunFault>, start: Option<Start>)
    ensures Bubbles(Conclude(w, sys, b, error, start).sys.offered) == Bubbles(sys.offered)
  {
    hide OfStream, Bubbles, Finalize;
    FinalizeSilent(sys);
    var closed := Finalize(sys);
    OfferAdds(closed, RunFinished(closed.st.run.threadId, closed.st.run.runId, Success));
  }

  lemma HeededStep(cfg: Config, arrivals: seq<Arrival>, i: nat)
    requires i < |arrivals|
    ensures HeededAll(cfg, arrivals[..i + 1]) == HeededAll(cfg, arrivals[..i]) + HeededAt(cfg, arrivals[i])
  {
    assert arrivals[..i + 1][..i] == arrivals[..i];
  }

  lemma {:induction false} HeededPrefix(cfg: Config, arrivals: seq<Arrival>, n: nat)
    requires n <= |arrivals|
    ensures HeededAll(cfg, arrivals[..n]) <= HeededAll(cfg, arrivals)
    decreases |arrivals|
  {
    hide HeededAt;
    if n == |arrivals| {
      assert arrivals[..n] == arrivals;
    } else {
      assert arrivals[..|arrivals| - 1][..n] == arrivals[..n];
      HeededPrefix(cfg, arrivals[..|arrivals| - 1], n);
    }
  }

  lemma HeardSnoc(events: seq<Event>, ev: Event, h: Heard)
    ensures HearEvents(events + [ev], h) == HearEvent(ev, HearEvents(events, h))
  {
    assert (events + [ev])[..|events|] == events;
  }

  /** The event at arrival i continues what was heard, because all heeded ones do. */
  lemma ArrivalContinues(cfg: Config, arrivals: seq<Arrival>, i: nat, n: nat, h: Heard)
    requires i < n <= |arrivals| && arrivals[i].item.Yielded? && arrivals[i].item.event.errorMessage == ""
    requires ContinuesAll(HeededAll(cfg, arrivals[..n]), h)
    ensures var ev := arrivals[i].item.event;
            ContinuesParts(ev.partial, HeededParts(cfg, ev), HearEvents(HeededAll(cfg, arrivals[..i]), h))
  {
    hide HearEvents, ContinuesParts, HeededParts, HeededAll;
    var before, all := HeededAll(cfg, arrivals[..i]), HeededAll(cfg, arrivals[..n]);
    var ev := Heeded(cfg, arrivals[i].item.event);
    HeededStep(cfg, arrivals, i);
    HeededPrefix(cfg, arrivals[..n], i + 1);
    assert arrivals[..n][..i + 1] == arrivals[..i + 1];
    assert all[..|before|] == before && all[|before|] == (before + [ev])[|before|] == ev;
    assert ContinuesParts(ev.partial, PartsOf(ev), HearEvents(all[..|before|], h));
  }

  lemma {:induction false} LoopTunes(w: World, agent: Agent, i: nat, sys: Sys, b: Backend, h: Heard)
    requires i <= |agent.arrivals| && w.net == Quiet() && FreshIds(w.cfg) && NeutralConverter(w.cfg)
    requires ContinuesAll(HeededAll(w.cfg, agent.arrivals[..Reached(w.cfg, agent.arrivals, i)]), h)
    requires InTune(sys, HearEvents(HeededAll(w.cfg, agent.arrivals[..i]), h), true)
    ensures Bubbles(RunLoop(w, agent, i, sys, b).0.offered)
         == AllBubbles(HearEvents(HeededAll(w.cfg, agent.arrivals[..Reached(w.cfg, agent.arrivals, i)]), h))
    decreases |agent.arrivals| - i
  {
    hide OfStream, Bubbles, RunEvent, EmitError, HearEvents, HearEvent, ContinuesAll, HeededAll, Heeded, HeededParts,
      EndingPart, PartsOf, ContinuesParts;
    if i < |agent.arrivals| {
      var arrivals, n := agent.arrivals, Reached(w.cfg, agent.arrivals, i);
      var b' := Put(b, KeyOf(sys.st.run), arrivals[i].session);
      var before := HeededAll(w.cfg, arrivals[..i]);
      HeededStep(w.cfg, arrivals, i);
      assert before + [] == before;
      match arrivals[i].item
      case Failure(message) => ErrorSilent(AgentFailed(message, ""), sys);
      case NilEvent => LoopTunes(w, agent, i + 1, sys, b', h);
      case Yielded(ev) =>
        if ev.errorMessage != "" {
          ErrorSilent(AgentFailed(ev.errorMessage, ev.errorCode), sys);
        } else {
          var stored := LookupOption(Get(w.faults, b', KeyOf(sys.st.run)));
          EventEnds(w.cfg, stored, ev, sys);
          ArrivalContinues(w.cfg, arrivals, i, n, h);
          EventTunes(w.cfg, stored, ev, sys, HearEvents(before, h));
          HeardSnoc(before, Heeded(w.cfg, ev), h);
          var (next, status) := RunEvent(w.cfg, w.net, stored, ev, sys);
          match status
          case Stop(fault) => ErrorSilent(fault, next);
          case Done =>
          case Continue => LoopTunes(w, agent, i + 1, next, b', h);
        }
    }
  }

  /** Reasoning reconstruction, for every request that starts the agent: if every
      accumulated thought continues the longest heard in its phase, then, phase by phase,
      the deltas under one message concatenate to exactly the longest accumulated thought.
      This holds whether the run succeeds, fails or is interrupted, and with any converter
      that opens and closes nothing. */
  lemma ReasoningOfRun(w: World, run: RunInfo, userId: string, req: Request, agent: Agent, b: Backend)
    requires w.net == Quiet() && FreshIds(w.cfg) && NeutralConverter(w.cfg)
    requires Handle(w, run, userId, req, agent, b).start.Some?
    requires ContinuesAll(HeededBy(w.cfg, agent), Heard([], ""))
    ensures Bubbles(Handle(w, run, userId, req, agent, b).sys.offered)
         == AllBubbles(HearEvents(HeededBy(w.cfg, agent), Heard([], "")))
  {
    hide Handle, OfStream, Bubbles, EmitError, RunLoop, Conclude, Prepared, Snapshot;
    hide ContinuesAll, HearEvents, HeededAll;
    StartedIsLaunched(w, run, userId, req, agent, b);
    var (b', session) := Prepared(w, run, userId, req, b);
    var sys := Admitted(run, userId, req);
    var ready := OfferState(Snapshot(session.value, StateOf(req)), sys);
    NothingOffered();
    OfferAdds(Sys(Initial(run), []), RunStarted(run.threadId, run.runId));
    OfferAdds(sys, StateSnapshot(Snapshot(session.value, StateOf(req))));
    assert Bubbles(ready.offered) == [];
    if agent.startError.Some? {
      ErrorSilent(AgentFailed(agent.startError.value, ""), ready);
    } else {
      assert agent.arrivals[..0] == [];
      LoopTunes(w, agent, 0, ready, b', Heard([], ""));
      var (last, b'', error) := RunLoop(w, agent, 0, ready, b');
      var start := Some(Start(sys.st.run.userId, sys.st.run.threadId, TurnOf(req).value, StateOf(req)));
      ConcludeAddsNoThought(w, last, b'', error, start);
    }
  }

  lemma NothingOffered()
    ensures Bubbles([]) == []
    ensures forall cfg :: HeededAll(cfg, []) == []
    ensures HearEvents([], Heard([], "")) == Heard([], "")
  {
  }
}
