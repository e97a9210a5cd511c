/** The text messages that a client has of some events: where each begins and what it says. */
module Voices {
  import opened Values
  import opened Adk
  import opened Protocol
  import opened Launcher
  import opened Emission
  import opened StreamSpec
  import opened Projections
  import opened Halting
  import opened Agreement

  /** The texts of all messages so far, whether the last is still open, and how much of the
      current thought is out. */
  datatype Voice = Voice(texts: seq<string>, open: bool, emitted: nat)

  const SILENT := Voice([], false, 0)

  /** More text: in the open message, or else in a message of its own. */
  function Said(texts: seq<string>, open: bool, text: string): seq<string> {
    if open && texts != [] then texts[..|texts| - 1] + [texts[|texts| - 1] + text] else texts + [text]
  }

  /** A partial text is said; a longer thought or a call closes the message; a final text only ends a thought. */
  function Speak(partial: bool, p: Part, v: Voice): Voice {
    if IsThought(p) then if partial && |p.text| > v.emitted then Voice(v.texts, false, |p.text|) else v
    else if IsText(p) then
      if partial then Voice(Said(v.texts, v.open, p.text), true, 0) else v.(emitted := 0)
    else if IsCall(p) then Voice(v.texts, false, 0)
    else v
  }

  function SpeakParts(partial: bool, parts: seq<Part>, v: Voice): Voice {
    if parts == [] then v
    else Speak(partial, parts[|parts| - 1], SpeakParts(partial, parts[..|parts| - 1], v))
  }

  function SpeakEvent(ev: Event, v: Voice): Voice {
    var spoken := SpeakParts(ev.partial, PartsOf(ev), v);
    if ev.turnComplete then Voice(spoken.texts, false, 0) else spoken
  }

  function SpeakEvents(events: seq<Event>, v: Voice): Voice {
    if events == [] then v
    else SpeakEvent(events[|events| - 1], SpeakEvents(events[..|events| - 1], v))
  }

  /** An open message has begun, and no thought is out beside it. */
  predicate Sound(v: Voice) {
    v.open ==> v.texts != [] && v.emitted == 0
  }

  /** The client has exactly these messages, the last open or not. */
  ghost predicate InVoice(sys: Sys, v: Voice) {
    && Texts(sys.offered) == v.texts && sys.st.emittedLen == v.emitted
    && (sys.st.text != "" <==> v.open) && Sound(v)
  }

  // ----- one operation at a time

  lemma TextsSnoc(trace: seq<AgEvent>, ev: AgEvent)
    ensures Texts(trace + [ev]) == NextText(Texts(trace), ev)
  {
    assert (trace + [ev])[..|trace|] == trace;
  }

  /** Neither a text message begins nor is one added to; whether one is open stays. */
  ghost predicate Mute(a: Sys, b: Sys) {
    Texts(b.offered) == Texts(a.offered) && b.st.text == a.st.text
  }

  lemma OfferMute(sys: Sys, ev: AgEvent)
    requires !ev.TextStart? && !ev.TextContent?
    ensures Mute(sys, Offer(sys, ev))
  {
    TextsSnoc(sys.offered, ev);
  }

  lemma CloseTextEnds(sys: Sys)
    ensures Texts(CloseText(sys).offered) == Texts(sys.offered) && CloseText(sys).st.text == ""
    ensures CloseText(sys).st.emittedLen == sys.st.emittedLen
  {
    TextsSnoc(sys.offered, TextEnd(sys.st.text));
  }

  lemma CloseReasoningMute(sys: Sys)
    ensures Mute(sys, CloseReasoning(sys)) && CloseReasoning(sys).st.emittedLen == 0
  {
    hide Texts;
    OfferMute(sys, ReasoningMessageEnd(sys.st.thought));
    OfferMute(CloseThought(sys), ReasoningEnd(CloseThought(sys).st.phase));
  }

  lemma ChangeStepMute(appName: string, author: string, sys: Sys)
    ensures Mute(sys, ChangeStep(appName, author, sys))
    ensures ChangeStep(appName, author, sys).st.emittedLen == sys.st.emittedLen
  {
    hide Texts;
    OfferMute(sys, StepFinished(sys.st.step));
    OfferMute(CloseStep(sys), StepStarted(author));
  }

  lemma FinalizeEnds(sys: Sys)
    ensures Texts(Finalize(sys).offered) == Texts(sys.offered)
    ensures Finalize(sys).st.text == "" && Finalize(sys).st.emittedLen == 0
  {
    hide Texts, CloseText, CloseReasoning;
    CloseTextEnds(sys);
    CloseReasoningMute(CloseText(sys));
    var closed := CloseReasoning(CloseText(sys));
    OfferMute(closed, StepFinished(closed.st.step));
  }

  lemma ThoughtSpeaks(cfg: Config, text: string, sys: Sys)
    requires |text| > sys.st.emittedLen
    ensures var next := Thought(cfg, text, sys);
            Texts(next.offered) == Texts(sys.offered) && next.st.text == "" && next.st.emittedLen == |text|
  {
    hide Texts, CloseText;
    var started := sys.(st := sys.st.(emittedLen := |text|));
    CloseTextEnds(started);
    var closed := CloseText(started);
    OfferMute(closed, ReasoningStart(cfg.freshId(closed.st.nextId)));
    var phased := OpenPhase(cfg, closed);
    OfferMute(phased, ReasoningMessageStart(cfg.freshId(phased.st.nextId)));
    var open := OpenThought(cfg, phased);
    OfferMute(open, ReasoningContent(open.st.thought, text[sys.st.emittedLen..]));
  }

  lemma TextSpeaks(cfg: Config, text: string, sys: Sys, v: Voice)
    requires InVoice(sys, v) && FreshIds(cfg)
    ensures InVoice(Text(cfg, true, text, sys), Voice(Said(v.texts, v.open, text), true, 0))
  {
    hide Texts, CloseReasoning;
    CloseReasoningMute(sys);
    var closed := CloseReasoning(sys);
    TextsSnoc(closed.offered, TextStart(cfg.freshId(closed.st.nextId)));
    var open := OpenText(cfg, closed);
    TextsSnoc(open.offered, TextContent(open.st.text, text));
    assert Texts(closed.offered) == v.texts;
    assert "" + text == text;
  }

  lemma CallMute(cfg: Config, call: FunctionCall, sys: Sys)
    ensures Mute(sys, Call(cfg, call, sys).0) && Call(cfg, call, sys).0.st == sys.st
  {
    hide Texts;
    var start := ToolCallStart(call.id, call.name, ParentOf(sys.st));
    OfferMute(sys, start);
    if cfg.marshal(call.args).Some? {
      var args := ToolCallArgs(call.id, cfg.marshal(call.args).value);
      OfferMute(Offer(sys, start), args);
      OfferMute(Offer(Offer(sys, start), args), ToolCallEnd(call.id));
    }
  }

  lemma {:induction false} NeutralMute(evs: seq<AgEvent>, sys: Sys)
    requires forall i :: 0 <= i < |evs| ==> Neutral(evs[i])
    ensures Mute(sys, OfferAll(sys, evs))
  {
    hide Texts;
    if evs == [] {
      assert OfferAll(sys, evs) == sys;
    } else {
      var front, last := evs[..|evs| - 1], evs[|evs| - 1];
      NeutralMute(front, sys);
      OfferMute(OfferAll(sys, front), last);
      assert OfferAll(sys, evs) == Offer(OfferAll(sys, front), last);
    }
  }

  /** A part that the launcher translates itself, and that lets the run go on. */
  lemma PartSpeaks(cfg: Config, stored: Option<Session>, ev: Event, p: Part, sys: Sys, v: Voice)
    requires FreshIds(cfg) && !Taken(cfg.converter, ev, p) && !EndsPlain(cfg, p) && InVoice(sys, v)
    ensures InVoice(OnePart(cfg, stored, ev, p, sys).0, Speak(ev.partial, p, v))
  {
    hide Texts, Thought, Text, CloseText, CloseReasoning, Call, Finalize, Said;
    if IsThought(p) {
      ThoughtPart(cfg, stored, ev, p, sys);
      if |p.text| > v.emitted {
        ThoughtSpeaks(cfg, p.text, sys);
      } else {
        ThoughtIgnored(cfg, p.text, sys);
      }
    } else if IsText(p) {
      TextSpeaks(cfg, p.text, sys, v);
      CloseReasoningMute(sys);
      FinalText(cfg, p.text, sys);
    } else if IsCall(p) {
      CloseTextEnds(sys);
      CloseReasoningMute(CloseText(sys));
      CallMute(cfg, p.call.value, CloseReasoning(CloseText(sys)));
    } else if IsResponse(p) {
      OfferMute(sys, ToolCallResult(cfg.freshId(sys.st.nextId), p.response.value.id,
                                    cfg.marshal(p.response.value.response).value));
    }
  }

  lemma FinalText(cfg: Config, text: string, sys: Sys)
    ensures Text(cfg, false, text, sys) == CloseReasoning(sys)
  {
  }

  lemma AnyPartSpeaks(cfg: Config, stored: Option<Session>, ev: Event, p: Part, sys: Sys, v: Voice)
    requires FreshIds(cfg) && NeutralConverter(cfg) && !EndsRun(cfg, ev, p) && InVoice(sys, v)
    ensures InVoice(OnePart(cfg, stored, ev, p, sys).0,
                    if Taken(cfg.converter, ev, p) then v else Speak(ev.partial, p, v))
  {
    hide Texts, PlainPart, Speak;
    if Taken(cfg.converter, ev, p) {
      NeutralMute(cfg.converter.value(ev, p).events, sys);
    } else {
      PartSpeaks(cfg, stored, ev, p, sys, v);
    }
  }

  // ----- whole events and runs

  lemma SpeakPartsSnoc(partial: bool, parts: seq<Part>, p: Part, v: Voice)
    ensures SpeakParts(partial, parts + [p], v) == Speak(partial, p, SpeakParts(partial, parts, v))
  {
    assert (parts + [p])[..|parts|] == parts;
  }

  lemma {:induction false} PartsSpeak(cfg: Config, stored: Option<Session>, ev: Event, i: nat, sys: Sys, v: Voice)
    requires i <= |PartsOf(ev)| && FreshIds(cfg) && NeutralConverter(cfg) && SmoothEvent(cfg, ev)
    requires InVoice(sys, SpeakParts(ev.partial, Untaken(cfg.converter, ev, PartsOf(ev)[..i]), v))
    ensures InVoice(RunParts(cfg, Quiet(), stored, ev, i, sys).0,
                    SpeakParts(ev.partial, Untaken(cfg.converter, ev, PartsOf(ev)), v))
    decreases |PartsOf(ev)| - i
  {
    hide OnePart, Send, SpeakParts, InVoice, PartsOf, Untaken, EndsRun, Taken;
    QuietSends(sys.offered);
    var parts := PartsOf(ev);
    assert parts[..|parts|] == parts;
    if i < |parts| {
      var before := Untaken(cfg.converter, ev, parts[..i]);
      AnyPartSpeaks(cfg, stored, ev, parts[i], sys, SpeakParts(ev.partial, before, v));
      PartEnds(cfg, stored, ev, parts[i], sys);
      assert parts[..i + 1] == parts[..i] + [parts[i]];
      UntakenSnoc(cfg.converter, ev, parts[..i], parts[i]);
      SpeakPartsSnoc(ev.partial, before, parts[i], v);
      PartsSpeak(cfg, stored, ev, i + 1, OnePart(cfg, stored, ev, parts[i], sys).0, v);
    }
  }

  lemma EndingSpeaks(ev: Event, sys: Sys, v: Voice)
    requires InVoice(sys, v)
    ensures InVoice(Ending(ev, sys), if ev.turnComplete then Voice(v.texts, false, 0) else v)
  {
    hide Texts, Finalize;
    OfferMute(sys, StateDelta(OpsOf(ev.delta)));
    FinalizeEnds(OfferDelta(ev.delta, sys));
  }

  lemma EventSpeaks(cfg: Config, stored: Option<Session>, ev: Event, sys: Sys, v: Voice)
    requires FreshIds(cfg) && NeutralConverter(cfg) && SmoothEvent(cfg, ev) && InVoice(sys, v)
    ensures InVoice(RunEvent(cfg, Quiet(), stored, ev, sys).0, SpeakEvent(Left(cfg.converter, ev), v))
  {
    hide Texts, RunParts, Ending, ChangeStep, Send, EndsRun, SpeakParts, Untaken;
    ChangeStepMute(cfg.appName, ev.author, sys);
    var begun := ChangeStep(cfg.appName, ev.author, sys);
    assert PartsOf(ev)[..0] == [];
    NothingSpoken(cfg.converter, ev, v);
    LeftParts(cfg.converter, ev);
    PartsSpeak(cfg, stored, ev, 0, begun, v);
    PartsEnd(cfg, stored, ev, 0, begun);
    EndingSpeaks(ev, RunParts(cfg, Quiet(), stored, ev, 0, begun).0,
                 SpeakParts(ev.partial, Untaken(cfg.converter, ev, PartsOf(ev)), v));
  }

  lemma NothingSpoken(converter: Option<Converter>, ev: Event, v: Voice)
    ensures SpeakParts(ev.partial, Untaken(converter, ev, []), v) == v
  {
  }

  lemma {:induction false} StreamSpeaks(cfg: Config, events: seq<Event>, i: nat, sys: Sys, v: Voice)
    requires i <= |events| && FreshIds(cfg) && NeutralConverter(cfg) && SmoothAll(cfg, events)
    requires InVoice(sys, SpeakEvents(LeftAll(cfg.converter, events)[..i], v))
    ensures InVoice(Streamed(cfg, events, i, sys), SpeakEvents(LeftAll(cfg.converter, events), v))
    decreases |events| - i
  {
    hide RunEvent, SpeakEvent, InVoice, Left, SmoothEvent;
    var left := LeftAll(cfg.converter, events);
    assert left[..|left|] == left;
    if i < |events| {
      LeftStep(cfg.converter, events, i);
      EventSpeaks(cfg, None, events[i], sys, SpeakEvents(left[..i], v));
      StreamSpeaks(cfg, events, i + 1, RunEvent(cfg, Quiet(), None, events[i], sys).0, v);
    }
  }

  /** Text reconstruction over events that neither fail nor interrupt: the client's text
      messages are exactly those that the partial texts make up, message by message. */
  lemma TextsReconstruct(cfg: Config, events: seq<Event>, sys: Sys)
    requires FreshIds(cfg) && NeutralConverter(cfg) && SmoothAll(cfg, events) && Unspoken(sys)
    ensures Texts(Streamed(cfg, events, 0, sys).offered) == SpeakEvents(LeftAll(cfg.converter, events), SILENT).texts
  {
    hide Texts, OfStream, Bubbles, Streamed, SpeakEvent, LeftAll, SmoothEvent;
    var left := LeftAll(cfg.converter, events);
    assert left[..0] == [];
    StreamSpeaks(cfg, events, 0, sys, SILENT);
  }
}
