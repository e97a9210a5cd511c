/** The live stream against the stored history: two translations of the same events. */
module Agreement {
  import opened Values
  import opened Sequences
  import opened Adk
  import opened Protocol
  import opened Launcher
  import opened Emission
  import opened StreamSpec
  import opened Projections
  import opened Halting

  // ----- reasoning: what has been thought, as the client should have it

  /** A reasoning message starts empty and grows by each delta. */
  function NextBubble(bubbles: seq<string>, ev: AgEvent): seq<string> {
    match ev
    case ReasoningMessageStart(_) => bubbles + [""]
    case ReasoningContent(_, delta) =>
      if bubbles == [] then [delta] else bubbles[..|bubbles| - 1] + [bubbles[|bubbles| - 1] + delta]
    case _ => bubbles
  }

  /** The text of each reasoning message of a stream, in order. */
  function Bubbles(trace: seq<AgEvent>): seq<string> {
    if trace == [] then [] else NextBubble(Bubbles(trace[..|trace| - 1]), trace[|trace| - 1])
  }

  /** A text message starts empty and grows by each delta. */
  function NextText(texts: seq<string>, ev: AgEvent): seq<string> {
    match ev
    case TextStart(_) => texts + [""]
    case TextContent(_, delta) =>
      if texts == [] then [delta] else texts[..|texts| - 1] + [texts[|texts| - 1] + delta]
    case _ => texts
  }

  /** The text of each text message of a stream, in order. */
  function Texts(trace: seq<AgEvent>): seq<string> {
    if trace == [] then [] else NextText(Texts(trace[..|trace| - 1]), trace[|trace| - 1])
  }

  function Same(s: string): string {
    s
  }

  lemma BubblesSnoc(trace: seq<AgEvent>, ev: AgEvent)
    ensures (trace + [ev])[..|trace|] == trace
  {
  }

  lemma NextBubbleHolds(bubbles: seq<string>, ev: AgEvent)
    ensures Gather(Same, NextBubble(bubbles, ev)) == Gather(Same, bubbles) + ThoughtDelta(ev)
  {
    if ev.ReasoningMessageStart? {
      GatherSnoc(Same, bubbles, "");
    } else if ev.ReasoningContent? {
      if bubbles == [] {
        GatherOne(Same, ev.delta);
      } else {
        GatherSnoc(Same, bubbles[..|bubbles| - 1], bubbles[|bubbles| - 1] + ev.delta);
      }
    }
  }

  /** All messages together hold all deltas. */
  lemma {:induction false} BubblesHoldDeltas(trace: seq<AgEvent>)
    ensures Gather(Same, Bubbles(trace)) == Gather(ThoughtDelta, trace)
  {
    hide NextBubble;
    if trace != [] {
      var front, last := trace[..|trace| - 1], trace[|trace| - 1];
      BubblesHoldDeltas(front);
      NextBubbleHolds(Bubbles(front), last);
    }
  }

  /** Thoughts of closed phases, and the longest accumulated thought of the open one. */
  datatype Heard = Heard(done: seq<string>, current: string)

  function AllBubbles(h: Heard): seq<string> {
    if h.current == "" then h.done else h.done + [h.current]
  }

  /** The end of a reasoning phase. */
  function Settle(h: Heard): Heard {
    Heard(AllBubbles(h), "")
  }

  /** A partial event's thought replaces a shorter one; text or a call ends the phase. */
  function Hear(partial: bool, p: Part, h: Heard): Heard {
    if IsThought(p) then if partial && |p.text| > |h.current| then h.(current := p.text) else h
    else if IsText(p) || IsCall(p) then Settle(h)
    else h
  }

  /** Accumulated thoughts that only grow: a longer one continues what was heard. */
  predicate Continues(partial: bool, p: Part, h: Heard) {
    IsThought(p) && partial && |p.text| > |h.current| ==> h.current <= p.text
  }

  /** The client has as many reasoning messages as there were thoughts, the open one
      included; `exact`: they are those thoughts. */
  ghost predicate InTune(sys: Sys, h: Heard, exact: bool) {
    && |Bubbles(sys.offered)| == |AllBubbles(h)|
    && (exact ==> Bubbles(sys.offered) == AllBubbles(h))
    && sys.st.emittedLen == |h.current|
    && (sys.st.thought != "" <==> h.current != "")
  }

  /** One longer thought: what the client has plus the delta is the new thought exactly
      when the new thought continues the old one. */
  lemma ThoughtDeltaExact(current: string, text: string)
    requires |text| > |current|
    ensures current + text[|current|..] == text <==> current <= text
  {
    assert text == text[..|current|] + text[|current|..];
    assert (current + text[|current|..])[..|current|] == current;
  }

  // ----- what each operation adds to the reading of the stream

  ghost predicate Adds(a: Sys, b: Sys, r: Reading) {
    OfStream(b.offered) == Plus(OfStream(a.offered), r)
  }

  lemma OfferAdds(sys: Sys, ev: AgEvent)
    ensures Adds(sys, Offer(sys, ev), OfEvent(ev))
    ensures !ev.ReasoningMessageStart? && !ev.ReasoningContent? ==> Bubbles(Offer(sys, ev).offered) == Bubbles(sys.offered)
  {
    StreamSnoc(sys.offered, ev);
    BubblesSnoc(sys.offered, ev);
  }

  /** Nothing a client reads has changed. */
  ghost predicate Silent(a: Sys, b: Sys) {
    && OfStream(b.offered) == OfStream(a.offered) && Bubbles(b.offered) == Bubbles(a.offered)
    && Texts(b.offered) == Texts(a.offered)
  }

  /** Lifecycle events carry no content. */
  lemma OfferSilent(sys: Sys, ev: AgEvent)
    requires OfEvent(ev) == NOTHING && !ev.ReasoningMessageStart? && !ev.ReasoningContent?
    requires !ev.TextStart? && !ev.TextContent?
    ensures Silent(sys, Offer(sys, ev))
  {
    StreamSnoc(sys.offered, ev);
    BubblesSnoc(sys.offered, ev);
    PlusNothing(OfStream(sys.offered));
  }

  lemma CloseTextSilent(sys: Sys)
    ensures Silent(sys, CloseText(sys))
    ensures CloseText(sys).st.emittedLen == sys.st.emittedLen
    ensures CloseText(sys).st.thought == sys.st.thought
  {
    hide OfStream, Texts, Bubbles;
    OfferSilent(sys, TextEnd(sys.st.text));
  }

  lemma CloseReasoningSilent(sys: Sys)
    ensures Silent(sys, CloseReasoning(sys))
    ensures CloseReasoning(sys).st.emittedLen == 0
    ensures CloseReasoning(sys).st.thought == ""
  {
    hide OfStream, Texts, Bubbles;
    OfferSilent(sys, ReasoningMessageEnd(sys.st.thought));
    OfferSilent(CloseThought(sys), ReasoningEnd(CloseThought(sys).st.phase));
  }

  lemma CloseStepSilent(sys: Sys)
    ensures Silent(sys, CloseStep(sys))
    ensures CloseStep(sys).st.emittedLen == sys.st.emittedLen
    ensures CloseStep(sys).st.thought == sys.st.thought
  {
    hide OfStream, Texts, Bubbles;
    OfferSilent(sys, StepFinished(sys.st.step));
  }

  lemma ChangeStepSilent(appName: string, author: string, sys: Sys)
    ensures Silent(sys, ChangeStep(appName, author, sys))
    ensures ChangeStep(appName, author, sys).st.emittedLen == sys.st.emittedLen
    ensures ChangeStep(appName, author, sys).st.thought == sys.st.thought
  {
    hide OfStream, Texts, Bubbles, CloseStep;
    CloseStepSilent(sys);
    OfferSilent(CloseStep(sys), StepStarted(author));
  }

  lemma FinalizeSilent(sys: Sys)
    ensures Silent(sys, Finalize(sys))
    ensures Finalize(sys).st.emittedLen == 0
    ensures Finalize(sys).st.thought == ""
  {
    hide OfStream, Texts, Bubbles, CloseText, CloseReasoning, CloseStep;
    CloseTextSilent(sys);
    CloseReasoningSilent(CloseText(sys));
    CloseStepSilent(CloseReasoning(CloseText(sys)));
  }

  /** A new thought opens a message, a longer one extends the last. */
  lemma ThoughtAdds(cfg: Config, text: string, sys: Sys, h: Heard, exact: bool)
    requires InTune(sys, h, exact) && |text| > |h.current| && (exact ==> h.current <= text) && FreshIds(cfg)
    ensures InTune(Thought(cfg, text, sys), h.(current := text), exact)
    ensures OfStream(Thought(cfg, text, sys).offered).(thought := "") == OfStream(sys.offered).(thought := "")
  {
    hide OfStream, CloseText, Bubbles;
    var started := sys.(st := sys.st.(emittedLen := |text|));
    CloseTextSilent(started);
    var closed := CloseText(started);
    OfferSilent(closed, ReasoningStart(cfg.freshId(closed.st.nextId)));
    var phased := OpenPhase(cfg, closed);
    assert Silent(started, phased) && phased.st.thought == sys.st.thought;
    OpenThoughtAdds(cfg, phased);
    var open := OpenThought(cfg, phased);
    ContentAdds(open, text[sys.st.emittedLen..]);
    if exact {
      ThoughtDeltaExact(h.current, text);
    }
  }

  lemma ThoughtIgnored(cfg: Config, text: string, sys: Sys)
    requires |text| <= sys.st.emittedLen
    ensures Thought(cfg, text, sys) == sys
  {
  }

  lemma OpenThoughtAdds(cfg: Config, sys: Sys)
    requires FreshIds(cfg)
    ensures var open := OpenThought(cfg, sys);
            && OfStream(open.offered) == OfStream(sys.offered)
            && Bubbles(open.offered) == (if sys.st.thought == "" then Bubbles(sys.offered) + [""] else Bubbles(sys.offered))
            && open.st.thought != "" && open.st.emittedLen == sys.st.emittedLen
  {
    var ev := ReasoningMessageStart(cfg.freshId(sys.st.nextId));
    StreamSnoc(sys.offered, ev);
    BubblesSnoc(sys.offered, ev);
    PlusNothing(OfStream(sys.offered));
  }

  lemma ContentAdds(sys: Sys, delta: string)
    requires Bubbles(sys.offered) != []
    ensures var next := Offer(sys, ReasoningContent(sys.st.thought, delta));
            var was := Bubbles(sys.offered);
            && OfStream(next.offered).(thought := "") == OfStream(sys.offered).(thought := "")
            && Bubbles(next.offered) == was[..|was| - 1] + [was[|was| - 1] + delta]
  {
    StreamSnoc(sys.offered, ReasoningContent(sys.st.thought, delta));
    BubblesSnoc(sys.offered, ReasoningContent(sys.st.thought, delta));
  }

  lemma TextAdds(cfg: Config, partial: bool, text: string, sys: Sys)
    ensures Adds(sys, Text(cfg, partial, text, sys), Reading(if partial then text else "", "", [], [], []))
    ensures Bubbles(Text(cfg, partial, text, sys).offered) == Bubbles(sys.offered)
    ensures Text(cfg, partial, text, sys).st.emittedLen == 0 && Text(cfg, partial, text, sys).st.thought == ""
  {
    hide OfStream, CloseReasoning, Bubbles;
    CloseReasoningSilent(sys);
    var closed := CloseReasoning(sys);
    if partial {
      OfferAdds(closed, TextStart(cfg.freshId(closed.st.nextId)));
      PlusNothing(OfStream(closed.offered));
      var open := OpenText(cfg, closed);
      OfferAdds(open, TextContent(open.st.text, text));
    } else {
      PlusNothing(OfStream(sys.offered));
    }
  }

  lemma CallAdds(cfg: Config, call: FunctionCall, sys: Sys)
    requires cfg.marshal(call.args).Some?
    ensures var (next, status) := Call(cfg, call, sys);
            && status == Continue && next.st == sys.st
            && Adds(sys, next, Reading("", "", [(call.id, call.name)], [], []))
            && Bubbles(next.offered) == Bubbles(sys.offered)
  {
    hide OfStream, Texts, Bubbles;
    var start := ToolCallStart(call.id, call.name, ParentOf(sys.st));
    OfferAdds(sys, start);
    var args := ToolCallArgs(call.id, cfg.marshal(call.args).value);
    OfferSilent(Offer(sys, start), args);
    OfferSilent(Offer(Offer(sys, start), args), ToolCallEnd(call.id));
  }

  /** What the stream shows of a reading: text only of partial events, thoughts apart. */
  function Streams(partial: bool, r: Reading): Reading {
    Reading(if partial then r.text else "", "", r.calls, r.results, r.cards)
  }

  lemma StreamsPlus(partial: bool, a: Reading, b: Reading)
    ensures Streams(partial, Plus(a, b)) == Plus(Streams(partial, a), Streams(partial, b))
  {
  }

  /** Everything but the thoughts agrees; thoughts are tracked by Heard. */
  ghost predicate SameButThought(a: Reading, b: Reading) {
    a.text == b.text && a.calls == b.calls && a.results == b.results && a.cards == b.cards
  }

  /** An accumulated thought of a partial event; other events' thoughts are not streamed. */
  lemma ThoughtHeard(cfg: Config, text: string, sys: Sys, h: Heard, exact: bool)
    requires FreshIds(cfg) && InTune(sys, h, exact)
    requires exact && |text| > |h.current| ==> h.current <= text
    ensures InTune(Thought(cfg, text, sys), if |text| > |h.current| then h.(current := text) else h, exact)
    ensures SameButThought(OfStream(Thought(cfg, text, sys).offered), OfStream(sys.offered))
  {
    hide OfStream, Texts, Bubbles, Thought, CloseText, CloseReasoning;
    if |text| > |h.current| {
      ThoughtAdds(cfg, text, sys, h, exact);
    } else {
      ThoughtIgnored(cfg, text, sys);
    }
  }

  lemma ThoughtPart(cfg: Config, stored: Option<Session>, ev: Event, p: Part, sys: Sys)
    requires IsThought(p) && !Taken(cfg.converter, ev, p)
    ensures OnePart(cfg, stored, ev, p, sys) == (if ev.partial then Thought(cfg, p.text, sys) else sys, Continue)
  {
    hide Thought, Text, CloseText, CloseReasoning;
  }

  /** A part that the launcher translates itself, and that lets the run go on. */
  lemma PartHeard(cfg: Config, stored: Option<Session>, ev: Event, p: Part, sys: Sys, h: Heard, exact: bool)
    requires FreshIds(cfg) && !Taken(cfg.converter, ev, p) && !EndsPlain(cfg, p)
    requires InTune(sys, h, exact) && (exact ==> Continues(ev.partial, p, h))
    ensures var (next, status) := OnePart(cfg, stored, ev, p, sys);
            && status == Continue
            && InTune(next, Hear(ev.partial, p, h), exact)
            && SameButThought(OfStream(next.offered), Plus(OfStream(sys.offered), Streams(ev.partial, OfPart(p))))
  {
    hide OfStream, Texts, Bubbles, Thought, Text, CloseText, CloseReasoning, Call, Finalize;
    PlusNothing(OfStream(sys.offered));
    if IsThought(p) {
      ThoughtPart(cfg, stored, ev, p, sys);
      if ev.partial {
        ThoughtHeard(cfg, p.text, sys, h, exact);
      }
    } else if IsText(p) {
      TextAdds(cfg, ev.partial, p.text, sys);
    } else if IsCall(p) {
      CloseTextSilent(sys);
      CloseReasoningSilent(CloseText(sys));
      CallAdds(cfg, p.call.value, CloseReasoning(CloseText(sys)));
    } else if IsResponse(p) {
      OfferAdds(sys, ToolCallResult(cfg.freshId(sys.st.nextId), p.response.value.id,
                                    cfg.marshal(p.response.value.response).value));
    }
  }

  /** Neutral events show their activities and no thought. */
  lemma {:induction false} NeutralAdds(evs: seq<AgEvent>, sys: Sys)
    requires forall i :: 0 <= i < |evs| ==> Neutral(evs[i])
    ensures Adds(sys, OfferAll(sys, evs), NOTHING.(cards := Gather(CardOf, evs)))
    ensures Bubbles(OfferAll(sys, evs).offered) == Bubbles(sys.offered)
  {
    hide OfStream, Texts, Bubbles;
    if evs == [] {
      assert OfferAll(sys, evs) == sys;
      PlusNothing(OfStream(sys.offered));
    } else {
      var front, last := evs[..|evs| - 1], evs[|evs| - 1];
      NeutralAdds(front, sys);
      OfferAdds(OfferAll(sys, front), last);
      assert OfferAll(sys, evs) == Offer(OfferAll(sys, front), last);
      PlusAssociates(OfStream(sys.offered), NOTHING.(cards := Gather(CardOf, front)), OfEvent(last));
    }
  }

  /** Any part that lets the run go on, heard if the launcher translates it. */
  lemma AnyPartHeard(cfg: Config, stored: Option<Session>, ev: Event, p: Part, sys: Sys, h: Heard, exact: bool)
    requires FreshIds(cfg) && NeutralConverter(cfg) && !EndsRun(cfg, ev, p) && InTune(sys, h, exact)
    requires exact ==> Taken(cfg.converter, ev, p) || Continues(ev.partial, p, h)
    ensures var (next, status) := OnePart(cfg, stored, ev, p, sys);
            && status == Continue
            && InTune(next, if Taken(cfg.converter, ev, p) then h else Hear(ev.partial, p, h), exact)
            && SameButThought(OfStream(next.offered),
                              Plus(OfStream(sys.offered), Streams(ev.partial, ReadPart(cfg.converter, ev, p))))
  {
    hide OfStream, Texts, Bubbles, PlainPart, Gather, Continues, Hear;
    if Taken(cfg.converter, ev, p) {
      NeutralAdds(cfg.converter.value(ev, p).events, sys);
    } else {
      PartHeard(cfg, stored, ev, p, sys, h, exact);
    }
  }

  // ----- whole events and runs

  function HearParts(partial: bool, parts: seq<Part>, h: Heard): Heard {
    if parts == [] then h
    else Hear(partial, parts[|parts| - 1], HearParts(partial, parts[..|parts| - 1], h))
  }

  function HearEvent(ev: Event, h: Heard): Heard {
    var heard := HearParts(ev.partial, PartsOf(ev), h);
    if ev.turnComplete then Settle(heard) else heard
  }

  predicate ContinuesParts(partial: bool, parts: seq<Part>, h: Heard) {
    forall i :: 0 <= i < |parts| ==> Continues(partial, parts[i], HearParts(partial, parts[..i], h))
  }

  /** Events that neither fail nor interrupt: everything encodes, nothing asks for confirmation. */
  predicate SmoothEvent(cfg: Config, ev: Event) {
    ev.errorMessage == "" && forall i :: 0 <= i < |PartsOf(ev)| ==> !EndsRun(cfg, ev, PartsOf(ev)[i])
  }

  lemma Accumulates(a: Reading, b: Reading, start: Reading, before: Reading, more: Reading)
    requires SameButThought(a, Plus(start, before)) && SameButThought(b, Plus(a, more))
    ensures SameButThought(b, Plus(start, Plus(before, more)))
  {
  }

  lemma HearPartsSnoc(partial: bool, parts: seq<Part>, p: Part, h: Heard)
    ensures HearParts(partial, parts + [p], h) == Hear(partial, p, HearParts(partial, parts, h))
  {
    assert (parts + [p])[..|parts|] == parts;
  }

  /** The next untaken part continues what was heard, because every one of them does. */
  lemma NextContinues(cfg: Config, ev: Event, i: nat, m: nat, h: Heard)
    requires i < m <= |PartsOf(ev)| && !Taken(cfg.converter, ev, PartsOf(ev)[i])
    requires ContinuesParts(ev.partial, Untaken(cfg.converter, ev, PartsOf(ev)[..m]), h)
    ensures Continues(ev.partial, PartsOf(ev)[i],
                      HearParts(ev.partial, Untaken(cfg.converter, ev, PartsOf(ev)[..i]), h))
  {
    hide HearParts, Continues, Taken, Untaken;
    var parts := PartsOf(ev);
    var before, all := Untaken(cfg.converter, ev, parts[..i]), Untaken(cfg.converter, ev, parts[..m]);
    assert parts[..m][..i + 1] == parts[..i] + [parts[i]];
    UntakenSnoc(cfg.converter, ev, parts[..i], parts[i]);
    UntakenPrefix(cfg.converter, ev, parts[..m], i + 1);
    assert all[..|before|] == before && all[|before|] == (before + [parts[i]])[|before|] == parts[i];
  }

  /** One part further: heard up to i becomes heard up to i + 1, of the untaken parts before m. */
  lemma NextPartHeard(cfg: Config, stored: Option<Session>, ev: Event, i: nat, m: nat, sys: Sys, h: Heard,
          exact: bool)
    requires i < m <= |PartsOf(ev)| && FreshIds(cfg) && NeutralConverter(cfg) && !EndsRun(cfg, ev, PartsOf(ev)[i])
    requires exact ==> ContinuesParts(ev.partial, Untaken(cfg.converter, ev, PartsOf(ev)[..m]), h)
    requires InTune(sys, HearParts(ev.partial, Untaken(cfg.converter, ev, PartsOf(ev)[..i]), h), exact)
    ensures var (next, status) := OnePart(cfg, stored, ev, PartsOf(ev)[i], sys);
            && status == Continue
            && InTune(next, HearParts(ev.partial, Untaken(cfg.converter, ev, PartsOf(ev)[..i + 1]), h), exact)
            && SameButThought(OfStream(next.offered),
                 Plus(OfStream(sys.offered), Streams(ev.partial, ReadPart(cfg.converter, ev, PartsOf(ev)[i]))))
  {
    hide OfStream, OnePart, EndsRun, Taken, Untaken, HearParts, ContinuesParts, Hear, Continues, InTune, ReadPart;
    hide SameButThought, Streams, Plus;
    var parts := PartsOf(ev);
    var before := Untaken(cfg.converter, ev, parts[..i]);
    if exact && !Taken(cfg.converter, ev, parts[i]) {
      NextContinues(cfg, ev, i, m, h);
    }
    AnyPartHeard(cfg, stored, ev, parts[i], sys, HearParts(ev.partial, before, h), exact);
    assert parts[..i + 1] == parts[..i] + [parts[i]];
    UntakenSnoc(cfg.converter, ev, parts[..i], parts[i]);
    HearPartsSnoc(ev.partial, before, parts[i], h);
  }

  lemma {:induction false} PartsHeard(cfg: Config, stored: Option<Session>, ev: Event, i: nat, sys: Sys, h: Heard,
          exact: bool, start: Reading)
    requires i <= |PartsOf(ev)| && FreshIds(cfg) && NeutralConverter(cfg) && SmoothEvent(cfg, ev)
    requires exact ==> ContinuesParts(ev.partial, Untaken(cfg.converter, ev, PartsOf(ev)), h)
    requires InTune(sys, HearParts(ev.partial, Untaken(cfg.converter, ev, PartsOf(ev)[..i]), h), exact)
    requires SameButThought(OfStream(sys.offered),
                            Plus(start, Streams(ev.partial, ReadParts(cfg.converter, ev, PartsOf(ev)[..i]))))
    ensures var (next, status) := RunParts(cfg, Quiet(), stored, ev, i, sys);
            && status == Continue
            && InTune(next, HearParts(ev.partial, Untaken(cfg.converter, ev, PartsOf(ev)), h), exact)
            && SameButThought(OfStream(next.offered), Plus(start, Streams(ev.partial, ReadEvent(cfg.converter, ev))))
    decreases |PartsOf(ev)| - i
  {
    hide OfStream, OnePart, Send, Plus, SameButThought, HearParts, ContinuesParts, InTune, PartsOf, Untaken, EndsRun;
    hide ReadParts, ReadPart, Streams;
    QuietSends(sys.offered);
    var parts := PartsOf(ev);
    assert parts[..|parts|] == parts;
    if i < |parts| {
      var next := OnePart(cfg, stored, ev, parts[i], sys).0;
      var before, part := ReadParts(cfg.converter, ev, parts[..i]), ReadPart(cfg.converter, ev, parts[i]);
      NextPartHeard(cfg, stored, ev, i, |parts|, sys, h, exact);
      assert parts[..i + 1] == parts[..i] + [parts[i]];
      ReadSnoc(cfg.converter, ev, parts[..i], parts[i]);
      StreamsPlus(ev.partial, before, part);
      Accumulates(OfStream(sys.offered), OfStream(next.offered), start, Streams(ev.partial, before),
                  Streams(ev.partial, part));
      PartsHeard(cfg, stored, ev, i + 1, next, h, exact, start);
    }
  }

  lemma EndingHeard(ev: Event, sys: Sys, h: Heard, exact: bool)
    requires InTune(sys, h, exact)
    ensures OfStream(Ending(ev, sys).offered) == OfStream(sys.offered)
    ensures InTune(Ending(ev, sys), if ev.turnComplete then Settle(h) else h, exact)
  {
    hide OfStream, Finalize, Bubbles;
    OfferSilent(sys, StateDelta(OpsOf(ev.delta)));
    FinalizeSilent(OfferDelta(ev.delta, sys));
  }

  function EventShown(converter: Option<Converter>, ev: Event): Reading {
    Streams(ev.partial, ReadEvent(converter, ev))
  }

  lemma EventHeard(cfg: Config, stored: Option<Session>, ev: Event, sys: Sys, h: Heard, exact: bool)
    requires FreshIds(cfg) && NeutralConverter(cfg) && SmoothEvent(cfg, ev) && InTune(sys, h, exact)
    requires exact ==> ContinuesParts(ev.partial, PartsOf(Left(cfg.converter, ev)), h)
    ensures var (next, status) := RunEvent(cfg, Quiet(), stored, ev, sys);
            && status == Continue
            && InTune(next, HearEvent(Left(cfg.converter, ev), h), exact)
            && SameButThought(OfStream(next.offered), Plus(OfStream(sys.offered), EventShown(cfg.converter, ev)))
  {
    hide OfStream, RunParts, Ending, ChangeStep, Send, Bubbles;
    ChangeStepSilent(cfg.appName, ev.author, sys);
    var begun := ChangeStep(cfg.appName, ev.author, sys);
    assert PartsOf(ev)[..0] == [];
    NothingReadYet(cfg.converter, ev);
    PlusNothing(OfStream(sys.offered));
    LeftParts(cfg.converter, ev);
    PartsHeard(cfg, stored, ev, 0, begun, h, exact, OfStream(sys.offered));
    var (mid, status) := RunParts(cfg, Quiet(), stored, ev, 0, begun);
    EndingHeard(ev, mid, HearParts(ev.partial, Untaken(cfg.converter, ev, PartsOf(ev)), h), exact);
    QuietSends(Ending(ev, mid).offered);
  }

  lemma NothingReadYet(converter: Option<Converter>, ev: Event)
    ensures Untaken(converter, ev, []) == [] && Streams(ev.partial, ReadParts(converter, ev, [])) == NOTHING
  {
  }

  /** Events i, i+1, ... of a run that nothing stops. */
  function Streamed(cfg: Config, events: seq<Event>, i: nat, sys: Sys): Sys
    requires i <= |events|
    decreases |events| - i
  {
    if i == |events| then sys
    else Streamed(cfg, events, i + 1, RunEvent(cfg, Quiet(), None, events[i], sys).0)
  }

  function HearEvents(events: seq<Event>, h: Heard): Heard {
    if events == [] then h
    else HearEvent(events[|events| - 1], HearEvents(events[..|events| - 1], h))
  }

  /** Every accumulated thought, wherever it comes, continues the thought heard so far. */
  predicate ContinuesAll(events: seq<Event>, h: Heard) {
    forall i :: 0 <= i < |events| ==>
      ContinuesParts(events[i].partial, PartsOf(events[i]), HearEvents(events[..i], h))
  }

  function ShownAll(converter: Option<Converter>, events: seq<Event>): Reading {
    if events == [] then NOTHING
    else Plus(ShownAll(converter, events[..|events| - 1]), EventShown(converter, events[|events| - 1]))
  }

  /** Events without the parts that the converter takes over. */
  function LeftAll(converter: Option<Converter>, events: seq<Event>): (left: seq<Event>)
    ensures |left| == |events|
  {
    seq(|events|, i requires 0 <= i < |events| => Left(converter, events[i]))
  }

  lemma LeftStep(converter: Option<Converter>, events: seq<Event>, i: nat)
    requires i < |events|
    ensures LeftAll(converter, events)[..i + 1][..i] == LeftAll(converter, events)[..i]
    ensures LeftAll(converter, events)[i] == Left(converter, events[i])
    ensures LeftAll(converter, events)[i].partial == events[i].partial
  {
  }

  predicate SmoothAll(cfg: Config, events: seq<Event>) {
    forall i :: 0 <= i < |events| ==> SmoothEvent(cfg, events[i])
  }

  lemma {:induction false} StreamHeard(cfg: Config, events: seq<Event>, i: nat, sys: Sys, h: Heard, exact: bool,
          start: Reading)
    requires i <= |events| && FreshIds(cfg) && NeutralConverter(cfg) && SmoothAll(cfg, events)
    requires exact ==> ContinuesAll(LeftAll(cfg.converter, events), h)
    requires InTune(sys, HearEvents(LeftAll(cfg.converter, events)[..i], h), exact)
    requires SameButThought(OfStream(sys.offered), Plus(start, ShownAll(cfg.converter, events[..i])))
    ensures InTune(Streamed(cfg, events, i, sys), HearEvents(LeftAll(cfg.converter, events), h), exact)
    ensures SameButThought(OfStream(Streamed(cfg, events, i, sys).offered),
                           Plus(start, ShownAll(cfg.converter, events)))
    decreases |events| - i
  {
    hide OfStream, RunEvent, EventShown, HearEvent, InTune, Left, SmoothEvent, ContinuesParts, Plus, SameButThought;
    var left := LeftAll(cfg.converter, events);
    assert events[..|events|] == events && left[..|left|] == left;
    if i < |events| {
      var next := RunEvent(cfg, Quiet(), None, events[i], sys).0;
      LeftStep(cfg.converter, events, i);
      EventHeard(cfg, None, events[i], sys, HearEvents(left[..i], h), exact);
      assert events[..i + 1][..i] == events[..i];
      assert ShownAll(cfg.converter, events[..i + 1])
          == Plus(ShownAll(cfg.converter, events[..i]), EventShown(cfg.converter, events[i]));
      Accumulates(OfStream(sys.offered), OfStream(next.offered), start, ShownAll(cfg.converter, events[..i]),
                  EventShown(cfg.converter, events[i]));
      StreamHeard(cfg, events, i + 1, next, h, exact, start);
    }
  }

  /** Nothing has been said: nothing is open and a client has read nothing yet. */
  ghost predicate Unspoken(sys: Sys) {
    && sys.st.emittedLen == 0 && sys.st.thought == "" && sys.st.text == ""
    && OfStream(sys.offered) == NOTHING && Bubbles(sys.offered) == [] && Texts(sys.offered) == []
  }

  /** Reasoning reconstruction over events that neither fail nor interrupt. There are as many
      reasoning messages as thoughts heard, and if every accumulated thought continues the
      longest heard in its phase, the deltas under one message concatenate to exactly the
      longest accumulated thought; texts, calls, results and activities are those shown. */
  lemma ReasoningReconstructs(cfg: Config, events: seq<Event>, sys: Sys)
    requires FreshIds(cfg) && NeutralConverter(cfg) && SmoothAll(cfg, events) && Unspoken(sys)
    ensures var trace := Streamed(cfg, events, 0, sys).offered;
            var heard := HearEvents(LeftAll(cfg.converter, events), Heard([], ""));
            && |Bubbles(trace)| == |AllBubbles(heard)|
            && (ContinuesAll(LeftAll(cfg.converter, events), Heard([], "")) ==> Bubbles(trace) == AllBubbles(heard))
            && OfStream(trace).thought == Gather(Same, Bubbles(trace))
            && SameButThought(OfStream(trace), ShownAll(cfg.converter, events))
  {
    hide OfStream, ShownAll, Bubbles, ContinuesAll, LeftAll, Left, HearEvent;
    var left := LeftAll(cfg.converter, events);
    assert events[..0] == [] && left[..0] == [];
    NoneShown(cfg.converter);
    PlusNothing(NOTHING);
    PlusNothing(ShownAll(cfg.converter, events));
    StreamHeard(cfg, events, 0, sys, Heard([], ""), ContinuesAll(left, Heard([], "")), NOTHING);
    var trace := Streamed(cfg, events, 0, sys).offered;
    BubblesHoldDeltas(trace);
    ThoughtOf(trace);
  }

  lemma ThoughtOf(trace: seq<AgEvent>)
    ensures OfStream(trace).thought == Gather(ThoughtDelta, trace)
  {
  }

  lemma NoneShown(converter: Option<Converter>)
    ensures ShownAll(converter, []) == NOTHING
  {
  }
}
