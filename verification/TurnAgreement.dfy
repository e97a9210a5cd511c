/** For model turns the live stream and the converted history tell the same story, exactly
    when no turn starts a thought in a reasoning phase that is still open and the converter
    makes no activity of a partial event. */
module TurnAgreement {
  import opened Values
  import opened Sequences
  import opened Adk
  import opened Protocol
  import opened Launcher
  import opened Emission
  import opened Sessions
  import opened Convert
  import opened StreamSpec
  import opened RunSpec
  import opened Projections
  import opened ConvertLaws
  import opened Agreement
  import opened Halting
  import opened Outcomes
  import opened Turns
  import opened TurnReadings

  // ----- agreement

  function HistoryOf(cfg: Config, turns: seq<seq<Event>>): Option<seq<Message>> {
    ConvertSession(HistoryConfig(cfg), Stored(Events(turns)))
  }

  /** A stream and the stored history of some turns hold the same text, the same thoughts
      message by message, the same calls (id and name), the same response ids and the same
      activities, each in order. */
  ghost predicate Agrees(cfg: Config, trace: seq<AgEvent>, turns: seq<seq<Event>>) {
    var messages := HistoryOf(cfg, turns);
    && messages.Some?
    && OfStream(trace) == OfMessages(messages.value)
    && Bubbles(trace) == Gather(ThoughtMessage, messages.value)
  }

  /** What history holds: exactly what the final events say. */
  lemma HistoryHolds(cfg: Config, turns: seq<seq<Event>>)
    requires NoneEmpty(turns) && AllTurns(LeftTurns(cfg.converter, turns)) && SmoothAll(cfg, Events(turns))
    requires NeutralConverter(cfg)
    ensures HistoryOf(cfg, turns).Some?
    ensures var messages := HistoryOf(cfg, turns).value;
            && OfMessages(messages) == ReadAll(cfg.converter, LastEvents(turns))
            && Gather(ThoughtMessage, messages) == Gather(ThoughtOfEvent, LeftAll(cfg.converter, LastEvents(turns)))
            && OfMessages(messages).thought == Gather(Same, Gather(ThoughtMessage, messages))
  {
    hide OfMessages, OfParts, IsTurn, SmoothEvent, ThoughtOfEvent, ConvertEvent, ConvertAll, ReadAll, LeftAll;
    hide OnlyNeutral;
    var lasts := LastEvents(turns);
    var kept := Gather(WithContent, lasts);
    TurnsConverted(cfg, turns);
    SmoothFinals(cfg, turns);
    AllSmoothConvert(cfg, kept);
    AllConserve(HistoryConfig(cfg), kept);
    AllThoughts(HistoryConfig(cfg), kept);
    ContentlessAddNothing(cfg.converter, lasts);
    ThoughtsJoin(ConvertAll(HistoryConfig(cfg), kept).value);
  }

  /** The client's reasoning messages are the thoughts of history exactly for clean turns. */
  lemma ThoughtsAgreeIff(cfg: Config, turns: seq<seq<Event>>, sys: Sys)
    requires NoneEmpty(turns) && AllTurns(LeftTurns(cfg.converter, turns)) && SmoothAll(cfg, Events(turns))
    requires FreshIds(cfg) && NeutralConverter(cfg) && Unspoken(sys) && NoneEmpty(LeftTurns(cfg.converter, turns))
    ensures Bubbles(Streamed(cfg, Events(turns), 0, sys).offered)
            == Gather(ThoughtOfEvent, LeftAll(cfg.converter, LastEvents(turns)))
            <==> Clean(LeftTurns(cfg.converter, turns))
  {
    hide OfParts, Bubbles, IsTurn, SmoothEvent, ThoughtOfEvent, ContinuesAll, Streamed, HearEvents, OfStream, LeftAll;
    var left := LeftTurns(cfg.converter, turns);
    LeftOfTurns(cfg.converter, turns);
    TurnsCounted(left);
    ReasoningReconstructs(cfg, Events(turns), sys);
    if Clean(left) {
      TurnsHeard(left);
    }
  }

  /** Agreement. For any sequence of model turns whose parts encode and ask for no
      confirmation, and any converter that opens and closes nothing, text, calls and
      responses always agree; the stream agrees with the stored history of the same events
      exactly when no turn starts a thought in an open phase and the converter makes no
      activity of a partial event. */
  lemma StreamAgreesWithHistory(cfg: Config, turns: seq<seq<Event>>, sys: Sys)
    requires AllTurns(LeftTurns(cfg.converter, turns)) && SmoothAll(cfg, Events(turns))
    requires FreshIds(cfg) && NeutralConverter(cfg) && Unspoken(sys)
    ensures NoneEmpty(turns) && NoneEmpty(LeftTurns(cfg.converter, turns)) && HistoryOf(cfg, turns).Some?
    ensures var trace := Streamed(cfg, Events(turns), 0, sys).offered;
            && SameContent(OfStream(trace), OfMessages(HistoryOf(cfg, turns).value))
            && (Agrees(cfg, trace, turns) <==>
                  Clean(LeftTurns(cfg.converter, turns)) && NoPartialCards(cfg.converter, turns))
  {
    hide OfStream, OfMessages, OfParts, Bubbles, IsTurn, SmoothEvent, ThoughtOfEvent, Clean, NoPartialCards;
    hide Streamed, HistoryOf, ReadAll, ShownAll, LeftAll, CardsAll, OnlyNeutral;
    LeftTurnsNotEmpty(cfg.converter, turns);
    TurnsShown(cfg.converter, turns);
    ReasoningReconstructs(cfg, Events(turns), sys);
    HistoryHolds(cfg, turns);
    ReadCards(cfg.converter, LastEvents(turns));
    CardsCounted(cfg.converter, turns);
    ThoughtsAgreeIff(cfg, turns, sys);
  }

  // ----- arguments and results

  /** The arguments a call shows in the stream and in history. */
  function StreamArguments(cfg: Config, call: FunctionCall, sys: Sys): Option<string> {
    var (next, status) := Call(cfg, call, sys);
    if status.Continue? && |next.offered| >= 2 && next.offered[|next.offered| - 2].ToolCallArgs?
    then Some(next.offered[|next.offered| - 2].arguments) else None
  }

  function HistoryArguments(cfg: Config, ev: Event, call: FunctionCall): Option<string> {
    var b := ConvertPlainPart(cfg.marshal, ev, Part("", false, Some(call), None), NO_BUFFERS);
    if b.Some? && |b.value.calls| == 1 then Some(b.value.calls[0].arguments) else None
  }

  /** A call whose arguments encode shows the same arguments in both places exactly when
      they are not nil, or nil encodes as "{}": the two translations differ on nil only. */
  lemma ArgumentsAgreeIff(cfg: Config, ev: Event, call: FunctionCall, sys: Sys)
    requires cfg.marshal(call.args).Some?
    ensures StreamArguments(cfg, call, sys) == HistoryArguments(cfg, ev, call) <==>
            call.args.Some? || cfg.marshal(None) == Some("{}")
  {
    var args := cfg.marshal(call.args).value;
    var offered := Call(cfg, call, sys).0.offered;
    assert offered[|offered| - 2] == ToolCallArgs(call.id, args);
  }

  // ----- the same for a request that runs the agent

  lemma SmoothPartIgnoresSession(cfg: Config, stored: Option<Session>, ev: Event, p: Part, sys: Sys)
    requires !EndsRun(cfg, ev, p)
    ensures OnePart(cfg, stored, ev, p, sys) == OnePart(cfg, None, ev, p, sys)
  {
    hide Thought, Text, Call, CloseText, CloseReasoning, Interrupting;
  }

  lemma {:induction false} SmoothIgnoresSession(cfg: Config, stored: Option<Session>, ev: Event, i: nat, sys: Sys)
    requires SmoothEvent(cfg, ev) && i <= |PartsOf(ev)|
    ensures RunParts(cfg, Quiet(), stored, ev, i, sys) == RunParts(cfg, Quiet(), None, ev, i, sys)
    decreases |PartsOf(ev)| - i
  {
    hide OnePart, Fails, EndsRun;
    if i < |PartsOf(ev)| {
      SmoothPartIgnoresSession(cfg, stored, ev, PartsOf(ev)[i], sys);
      var (next, status) := OnePart(cfg, stored, ev, PartsOf(ev)[i], sys);
      if status.Continue? {
        SmoothIgnoresSession(cfg, stored, ev, i + 1, next);
      }
    }
  }

  lemma SmoothGoesOn(cfg: Config, stored: Option<Session>, ev: Event, sys: Sys)
    requires SmoothEvent(cfg, ev)
    ensures ev.errorMessage == "" && RunEvent(cfg, Quiet(), stored, ev, sys).1.Continue?
  {
    hide EndsRun, RunEvent;
    EventEnds(cfg, stored, ev, sys);
  }

  /** The agent yields exactly these events and then stops. */
  predicate Yields(agent: Agent, events: seq<Event>) {
    && agent.startError.None? && |agent.arrivals| == |events|
    && forall i :: 0 <= i < |events| ==> agent.arrivals[i].item == Yielded(events[i])
  }

  lemma {:induction false} LoopStreams(w: World, agent: Agent, events: seq<Event>, i: nat, sys: Sys, b: Backend)
    requires w.net == Quiet() && Yields(agent, events) && i <= |events| && SmoothAll(w.cfg, events)
    ensures var (next, _, error) := RunLoop(w, agent, i, sys, b);
            next == Streamed(w.cfg, events, i, sys) && error.None?
    decreases |events| - i
  {
    hide RunParts, ChangeStep, Ending, Fails, SmoothEvent;
    if i < |events| {
      var b' := Put(b, KeyOf(sys.st.run), agent.arrivals[i].session);
      var stored := LookupOption(Get(w.faults, b', KeyOf(sys.st.run)));
      SmoothIgnoresSession(w.cfg, stored, events[i], 0, ChangeStep(w.cfg.appName, events[i].author, sys));
      SmoothGoesOn(w.cfg, stored, events[i], sys);
      LoopStreams(w, agent, events, i + 1, RunEvent(w.cfg, w.net, stored, events[i], sys).0, b');
    }
  }

  lemma ConcludeSilent(w: World, sys: Sys, b: Backend, error: Option<RunFault>, start: Option<Start>)
    ensures Silent(sys, Conclude(w, sys, b, error, start).sys)
  {
    hide OfStream, Texts, Bubbles, Finalize;
    FinalizeSilent(sys);
    var closed := Finalize(sys);
    OfferSilent(closed, RunFinished(closed.st.run.threadId, closed.st.run.runId, Success));
  }

  /** From a run with nothing said yet: what the launch of an agent that yields such events
      adds beyond them, a client does not read. */
  lemma LaunchStreams(w: World, req: Request, agent: Agent, session: Option<Session>, sys: Sys, b: Backend,
                      events: seq<Event>)
    requires w.net == Quiet() && TurnOf(req).Ok? && Yields(agent, events) && SmoothAll(w.cfg, events) && Unspoken(sys)
    ensures var ready := OfferState(Snapshot(session, StateOf(req)), sys);
            Unspoken(ready) &&
            Silent(Streamed(w.cfg, events, 0, ready), Launch(w, req, agent, session, sys, b).sys)
  {
    hide OfStream, Texts, Bubbles, SmoothAll, Conclude, RunLoop, Streamed;
    OfferSilent(sys, StateSnapshot(Snapshot(session, StateOf(req))));
    var ready := OfferState(Snapshot(session, StateOf(req)), sys);
    LoopStreams(w, agent, events, 0, ready, b);
    var (last, b', error) := RunLoop(w, agent, 0, ready, b);
    ConcludeSilent(w, last, b', error,
                   Some(Start(sys.st.run.userId, sys.st.run.threadId, TurnOf(req).value, StateOf(req))));
  }

  /** A request that starts an agent which yields such turns: its whole stream, from
      RunStarted to RunFinished, agrees with the history of those turns under exactly the
      same condition. */
  lemma RunAgreesWithHistory(w: World, run: RunInfo, userId: string, req: Request, agent: Agent, b: Backend,
                             turns: seq<seq<Event>>)
    requires w.net == Quiet() && FreshIds(w.cfg) && NeutralConverter(w.cfg)
    requires Handle(w, run, userId, req, agent, b).start.Some? && Yields(agent, Events(turns))
    requires AllTurns(LeftTurns(w.cfg.converter, turns)) && SmoothAll(w.cfg, Events(turns))
    ensures NoneEmpty(turns) && NoneEmpty(LeftTurns(w.cfg.converter, turns)) && HistoryOf(w.cfg, turns).Some?
    ensures var trace := Handle(w, run, userId, req, agent, b).sys.offered;
            && SameContent(OfStream(trace), OfMessages(HistoryOf(w.cfg, turns).value))
            && (Agrees(w.cfg, trace, turns) <==>
                  Clean(LeftTurns(w.cfg.converter, turns)) && NoPartialCards(w.cfg.converter, turns))
  {
    hide Launch, Handle, OfStream, OfMessages, Bubbles, AllTurns, SmoothAll, HistoryOf, Prepared, Streamed, OnlyNeutral;
    hide Clean, NoPartialCards, Yields;
    StartedIsLaunched(w, run, userId, req, agent, b);
    var (b', session) := Prepared(w, run, userId, req, b);
    var sys := Admitted(run, userId, req);
    NothingSaidYet();
    OfferSilent(Sys(Initial(run), []), RunStarted(run.threadId, run.runId));
    LaunchStreams(w, req, agent, session.value, sys, b', Events(turns));
    StreamAgreesWithHistory(w.cfg, turns, OfferState(Snapshot(session.value, StateOf(req)), sys));
  }

  lemma NothingSaidYet()
    ensures OfStream([]) == NOTHING && Bubbles([]) == [] && Texts([]) == []
  {
  }

  // ----- a real case of disagreement

  function Says(text: string, thought: bool, partial: bool): Event {
    Event("", "", partial, Some(Content("model", [Part(text, thought, None, None)])), [], false, "", "", 0)
  }

  lemma SaysHeard(text: string, partial: bool, events: seq<Event>, h: Heard)
    requires text != "" && ContinuesAll(events, h)
    ensures var p, said := Part(text, true, None, None), HearEvents(events, h);
            && HearEvents(events + [Says(text, true, partial)], h) == Hear(partial, p, said)
            && (Continues(partial, p, said) ==> ContinuesAll(events + [Says(text, true, partial)], h))
  {
    var ev, said := Says(text, true, partial), HearEvents(events, h);
    var p := Part(text, true, None, None);
    assert (events + [ev])[..|events|] == events;
    assert PartsOf(ev) == [p] && [p][..0] == [];
    assert HearParts(partial, [p], said) == Hear(partial, p, said);
    if Continues(partial, p, said) {
      LastContinues(events, ev, h);
    }
  }

  /** Two turns that are one thought each, "abc" and "xy". */
  function TwoThoughts(): seq<Event> {
    [Says("abc", true, true), Says("abc", true, false), Says("xy", true, true), Says("xy", true, false)]
  }

  lemma OnlyTheFirstIsHeard()
    ensures HearEvents(TwoThoughts(), Heard([], "")) == Heard([], "abc") && ContinuesAll(TwoThoughts(), Heard([], ""))
  {
    hide HearEvents, ContinuesAll, Says;
    var all, none := TwoThoughts(), Heard([], "");
    assert HearEvents([], none) == none && ContinuesAll([], none) by {
      NothingHeard(none);
    }
    SaysHeard("abc", true, [], none);
    assert [] + [all[0]] == [all[0]];
    SaysHeard("abc", false, [all[0]], none);
    assert [all[0]] + [all[1]] == [all[0], all[1]];
    SaysHeard("xy", true, [all[0], all[1]], none);
    assert [all[0], all[1]] + [all[2]] == [all[0], all[1], all[2]];
    SaysHeard("xy", false, [all[0], all[1], all[2]], none);
    assert [all[0], all[1], all[2]] + [all[3]] == all;
  }

  lemma NothingHeard(h: Heard)
    ensures HearEvents([], h) == h && ContinuesAll([], h)
  {
  }

  lemma BothAreStored()
    ensures var finals := [Says("abc", true, false), Says("xy", true, false)];
            && Gather(FinalWithContent, TwoThoughts()) == finals
            && Gather(ThoughtOfEvent, finals) == ["abc", "xy"]
  {
    var all, finals := TwoThoughts(), [Says("abc", true, false), Says("xy", true, false)];
    assert all == [all[0], all[1], all[2]] + [all[3]];
    GatherSnoc(FinalWithContent, [all[0], all[1], all[2]], all[3]);
    assert [all[0], all[1], all[2]] == [all[0], all[1]] + [all[2]];
    GatherSnoc(FinalWithContent, [all[0], all[1]], all[2]);
    assert [all[0], all[1]] == [all[0]] + [all[1]];
    GatherSnoc(FinalWithContent, [all[0]], all[1]);
    GatherOne(FinalWithContent, all[0]);
    assert finals == [finals[0]] + [finals[1]];
    GatherSnoc(ThoughtOfEvent, [finals[0]], finals[1]);
    GatherOne(ThoughtOfEvent, finals[0]);
    ThoughtSaid("abc");
    ThoughtSaid("xy");
  }

  lemma ThoughtSaid(text: string)
    requires text != ""
    ensures ThoughtOfEvent(Says(text, true, false)) == [text]
  {
    GatherOne(PartThought, Part(text, true, None, None));
  }

  lemma {:induction false} AllLeft(ev: Event, parts: seq<Part>)
    ensures Untaken(None, ev, parts) == parts
  {
    if parts != [] {
      AllLeft(ev, parts[..|parts| - 1]);
    }
  }

  lemma LeftAsTheyAre(events: seq<Event>)
    ensures LeftAll(None, events) == events
  {
    forall i | 0 <= i < |events|
      ensures Left(None, events[i]) == events[i]
    {
      AllLeft(events[i], PartsOf(events[i]));
    }
  }

  lemma BothAreConverted(cfg: Config)
    requires cfg.converter == None
    ensures var messages := ConvertSession(HistoryConfig(cfg), Stored(TwoThoughts()));
            messages.Some? && Gather(ThoughtMessage, messages.value) == ["abc", "xy"]
  {
    hide OfParts, ConvertAll, ConvertEvent, Gather, ThoughtOfEvent, LeftAll, EndsPlain, TwoThoughts;
    var finals := [Says("abc", true, false), Says("xy", true, false)];
    StoredEligible(TwoThoughts());
    FinalsOnly(TwoThoughts());
    BothAreStored();
    SaysSmooth(cfg, finals);
    AllSmoothConvert(cfg, finals);
    LeftAsTheyAre(finals);
    AllThoughts(HistoryConfig(cfg), finals);
  }

  lemma SaysSmooth(cfg: Config, events: seq<Event>)
    requires cfg.converter == None
    requires forall i :: 0 <= i < |events| ==>
               exists text, partial :: text != "" && events[i] == Says(text, true, partial)
    ensures SmoothAll(cfg, events)
  {
    forall i | 0 <= i < |events|
      ensures SmoothEvent(cfg, events[i])
    {
      var text, partial :| text != "" && events[i] == Says(text, true, partial);
    }
  }

  lemma OneIsStreamed(cfg: Config, run: RunInfo)
    requires cfg.converter == None && FreshIds(cfg)
    ensures Bubbles(Streamed(cfg, TwoThoughts(), 0, Sys(Initial(run), [])).offered) == ["abc"]
  {
    hide OfStream, Texts, Bubbles, Streamed, HearEvents, ContinuesAll, LeftAll, ShownAll, SmoothEvent, EndsPlain;
    NothingSaidYet();
    OnlyTheFirstIsHeard();
    LeftAsTheyAre(TwoThoughts());
    assert Says("abc", true, true) == TwoThoughts()[0] && Says("abc", true, false) == TwoThoughts()[1];
    assert Says("xy", true, true) == TwoThoughts()[2] && Says("xy", true, false) == TwoThoughts()[3];
    SaysSmooth(cfg, TwoThoughts());
    ReasoningReconstructs(cfg, TwoThoughts(), Sys(Initial(run), []));
  }

  /** A final event with nothing but a thought leaves its reasoning phase open: a shorter
      thought that follows is stored in history and never streamed. */
  lemma OpenPhaseLosesThought(cfg: Config, run: RunInfo)
    requires cfg.converter == None && FreshIds(cfg)
    ensures var messages := ConvertSession(HistoryConfig(cfg), Stored(TwoThoughts()));
            && messages.Some? && Gather(ThoughtMessage, messages.value) == ["abc", "xy"]
            && Bubbles(Streamed(cfg, TwoThoughts(), 0, Sys(Initial(run), [])).offered) == ["abc"]
  {
    hide ConvertSession, Streamed, Bubbles, Gather;
    BothAreConverted(cfg);
    OneIsStreamed(cfg, run);
  }
}
