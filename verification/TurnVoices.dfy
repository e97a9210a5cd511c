/** The text messages of model turns: exactly when each turn's text is a message of its own. */
module TurnVoices {
  import opened Values
  import opened Sequences
  import opened Adk
  import opened Protocol
  import opened Launcher
  import opened Emission
  import opened Sessions
  import opened StreamSpec
  import opened RunSpec
  import opened Projections
  import opened Outcomes
  import opened Agreement
  import opened Voices
  import opened Turns
  import opened TurnReadings
  import opened TurnAgreement

  // ----- speaking one turn

  lemma {:induction false} SpeakPartsAppend(partial: bool, a: seq<Part>, b: seq<Part>, v: Voice)
    ensures SpeakParts(partial, a + b, v) == SpeakParts(partial, b, SpeakParts(partial, a, v))
    decreases |b|
  {
    hide Speak;
    if b == [] {
      assert a + b == a;
    } else {
      SpeakPartsAppend(partial, a, b[..|b| - 1], v);
      assert (a + b)[..|a + b| - 1] == a + b[..|b| - 1];
    }
  }

  lemma {:induction false} SpeakEventsAppend(a: seq<Event>, b: seq<Event>, v: Voice)
    ensures SpeakEvents(a + b, v) == SpeakEvents(b, SpeakEvents(a, v))
    decreases |b|
  {
    hide SpeakEvent;
    if b == [] {
      assert a + b == a;
    } else {
      SpeakEventsAppend(a, b[..|b| - 1], v);
      assert (a + b)[..|a + b| - 1] == a + b[..|b| - 1];
    }
  }

  /** Partial events speak like their parts in a row. */
  lemma {:induction false} SpeakFlat(events: seq<Event>, v: Voice)
    requires PartialEvents(events)
    ensures SpeakEvents(events, v) == SpeakParts(true, Gather(PartsOf, events), v)
  {
    hide Speak;
    if events != [] {
      var front, last := events[..|events| - 1], events[|events| - 1];
      SpeakFlat(front, v);
      SpeakPartsAppend(true, Gather(PartsOf, front), PartsOf(last), v);
    }
  }

  /** What some text, if any, makes of the messages so far. */
  function WithText(texts: seq<string>, open: bool, text: string): seq<string> {
    if text == "" then texts else Said(texts, open, text)
  }

  lemma TextsJoin(texts: seq<string>, open: bool, a: string, b: string)
    requires a != "" && (open ==> texts != [])
    ensures Said(Said(texts, open, a), true, b) == Said(texts, open, a + b)
  {
    var once := Said(texts, open, a);
    assert once[..|once| - 1] == if open then texts[..|texts| - 1] else texts;
    if open {
      assert texts[|texts| - 1] + a + b == texts[|texts| - 1] + (a + b);
    }
  }

  lemma SpokenText(parts: seq<Part>)
    requires parts != []
    ensures OfParts(parts).text == OfParts(parts[..|parts| - 1]).text + PartText(parts[|parts| - 1])
  {
    PartsSnoc(parts[..|parts| - 1], parts[|parts| - 1]);
    assert parts == parts[..|parts| - 1] + [parts[|parts| - 1]];
  }

  /** One spoken part after others, as thoughts and texts so far. */
  lemma PartVoices(p: Part, thought: bool, text: string, v: Voice, w: Voice)
    requires Sound(v) && Sound(w) && !IsCall(p) && (IsThought(p) ==> text == "")
    requires w.texts == WithText(v.texts, v.open && !thought, text)
    requires w.open <==> text != "" || (v.open && !thought)
    ensures var next, thinks := Speak(true, p, w), thought || IsThought(p);
            && Sound(next) && next.texts == WithText(v.texts, v.open && !thinks, text + PartText(p))
            && (next.open <==> text + PartText(p) != "" || (v.open && !thinks))
  {
    assert text + "" == text;
    if IsText(p) {
      if text != "" {
        TextsJoin(v.texts, v.open && !thought, text, p.text);
      } else {
        assert text + p.text == p.text;
      }
    }
  }

  /** Spoken parts from any state: a thought closes an open message, and then all the text
      goes into the open message or, if none is open, into one of its own. */
  lemma {:induction false} SpokenVoices(parts: seq<Part>, v: Voice)
    requires Spoken(parts) && Sound(v)
    ensures var w, text, quiet := SpeakParts(true, parts, v), OfParts(parts).text, v.open && Longest(parts) == "";
            && Sound(w) && w.texts == WithText(v.texts, quiet, text) && (w.open <==> text != "" || quiet)
  {
    hide Speak, OfParts, Longest, Said, Sound, WithText;
    if parts == [] {
      NoParts(v);
    } else {
      var front, last := parts[..|parts| - 1], parts[|parts| - 1];
      SpokenPrefix(parts, |parts| - 1);
      SpokenVoices(front, v);
      SpokenText(parts);
      LongestSnoc(front, last);
      assert parts == front + [last];
      if IsThought(last) {
        NoTextBefore(parts);
        TextIsThere(front);
      }
      PartVoices(last, Longest(front) != "", OfParts(front).text, v, SpeakParts(true, front, v));
    }
  }

  lemma NoParts(v: Voice)
    ensures OfParts([]).text == "" && Longest([]) == "" && WithText(v.texts, v.open, "") == v.texts
  {
  }

  /** A final event that closes the open text message: it has a call, or completes the turn. */
  predicate Shuts(ev: Event) {
    ev.turnComplete || exists i :: 0 <= i < |PartsOf(ev)| && IsCall(PartsOf(ev)[i])
  }

  predicate Speaks(ev: Event) {
    OfParts(PartsOf(ev)).text != ""
  }

  /** The final event says no text again; its first call closes the message. */
  lemma {:induction false} FinalVoices(parts: seq<Part>, v: Voice)
    requires Sound(v)
    ensures var w := SpeakParts(false, parts, v);
            && Sound(w) && w.texts == v.texts
            && (w.open <==> v.open && forall i :: 0 <= i < |parts| ==> !IsCall(parts[i]))
  {
    if parts != [] {
      var front, last := parts[..|parts| - 1], parts[|parts| - 1];
      FinalVoices(front, v);
      assert forall i :: 0 <= i < |front| ==> front[i] == parts[i];
    }
  }

  /** What a turn adds from any state. Its text, if it has any, joins the open message if one
      is open and the turn has no thought, and is a message of its own otherwise; a message is
      open afterwards unless the final event closes it. */
  lemma TurnSpoken(turn: seq<Event>, v: Voice)
    requires IsTurn(turn) && Sound(v)
    ensures var after, last := SpeakEvents(turn, v), turn[|turn| - 1];
            var quiet := v.open && !Thinks(last);
            && Sound(after) && after.texts == WithText(v.texts, quiet, OfParts(PartsOf(last)).text)
            && (after.open <==> !Shuts(last) && (Speaks(last) || quiet))
  {
    hide Speak, SpeakParts, OfParts, Longest, PartialEvents, Gather, Spoken, WithText;
    var partials, last := turn[..|turn| - 1], turn[|turn| - 1];
    var spoken := Gather(PartsOf, partials);
    SpeakFlat(partials, v);
    SpokenVoices(spoken, v);
    FinalVoices(PartsOf(last), SpeakParts(true, spoken, v));
  }

  // ----- many turns

  /** Whether a text message is open after some turns: a turn spoke, and since then no final
      event closed the message and no turn thought without speaking. */
  predicate TextOpenAfter(turns: seq<seq<Event>>)
    requires NoneEmpty(turns)
  {
    turns != [] &&
    var front, last := turns[..|turns| - 1], Final(turns[|turns| - 1]);
    !Shuts(last) && (Speaks(last) || (TextOpenAfter(front) && !Thinks(last)))
  }

  /** Every turn that speaks thinks first or finds no message open. */
  predicate SpeakAlone(turns: seq<seq<Event>>)
    requires NoneEmpty(turns)
  {
    turns == [] ||
    var front, last := turns[..|turns| - 1], Final(turns[|turns| - 1]);
    SpeakAlone(front) && (Speaks(last) && !Thinks(last) ==> !TextOpenAfter(front))
  }

  /** In particular turns that close their message: those whose final event completes the
      turn or has a call. */
  lemma {:induction false} ClosedTurnsSpeakAlone(turns: seq<seq<Event>>)
    requires NoneEmpty(turns)
    requires forall i :: 0 <= i < |turns| && Speaks(Final(turns[i])) ==> Shuts(Final(turns[i]))
    ensures SpeakAlone(turns) && !TextOpenAfter(turns)
  {
    hide Thinks, Speaks, Shuts;
    if turns != [] {
      ClosedTurnsSpeakAlone(turns[..|turns| - 1]);
    }
  }

  function TextOfEvent(ev: Event): seq<string> {
    if Speaks(ev) then [OfParts(PartsOf(ev)).text] else []
  }

  /** The count behind it: a client never has more text messages than turns that speak; as
      many exactly when every one speaks alone, and then message by message their texts. */
  lemma {:induction false} TurnsSpoken(turns: seq<seq<Event>>)
    requires AllTurns(turns) && NoneEmpty(turns)
    ensures var after, texts := SpeakEvents(Events(turns), SILENT), Gather(TextOfEvent, LastEvents(turns));
            && Sound(after) && |after.texts| <= |texts|
            && (|after.texts| == |texts| <==> SpeakAlone(turns))
            && (SpeakAlone(turns) ==> after.texts == texts)
            && (after.open <==> TextOpenAfter(turns))
  {
    hide OfParts, IsTurn, SpeakEvent, Shuts, Thinks;
    if turns != [] {
      var front, turn := turns[..|turns| - 1], turns[|turns| - 1];
      TurnsSpoken(front);
      SpeakEventsAppend(Events(front), turn, SILENT);
      TurnSpoken(turn, SpeakEvents(Events(front), SILENT));
      GatherSnoc(TextOfEvent, LastEvents(front), Final(turn));
    }
  }

  // ----- in the stream

  /** For any sequence of model turns and any converter that opens and closes nothing: the
      client's text messages are, one by one, the texts of the turns exactly when every turn
      that speaks thinks first or finds no text message open. */
  lemma TurnsAreMessages(cfg: Config, turns: seq<seq<Event>>, sys: Sys)
    requires AllTurns(LeftTurns(cfg.converter, turns)) && SmoothAll(cfg, Events(turns))
    requires FreshIds(cfg) && NeutralConverter(cfg) && Unspoken(sys)
    ensures NoneEmpty(turns) && NoneEmpty(LeftTurns(cfg.converter, turns))
    ensures Texts(Streamed(cfg, Events(turns), 0, sys).offered)
            == Gather(TextOfEvent, LeftAll(cfg.converter, LastEvents(turns)))
            <==> SpeakAlone(LeftTurns(cfg.converter, turns))
  {
    hide OfParts, Texts, OfStream, Bubbles, IsTurn, SmoothEvent, TextOfEvent, Streamed, SpeakEvents, LeftAll, Unspoken;
    hide SpeakAlone, TextOpenAfter, OnlyNeutral;
    LeftTurnsNotEmpty(cfg.converter, turns);
    LeftOfTurns(cfg.converter, turns);
    TextsReconstruct(cfg, Events(turns), sys);
    TurnsSpoken(LeftTurns(cfg.converter, turns));
  }

  /** The same for the whole stream of a request that starts an agent which yields such turns. */
  lemma RunTurnsAreMessages(w: World, run: RunInfo, userId: string, req: Request, agent: Agent, b: Backend,
                            turns: seq<seq<Event>>)
    requires w.net == Quiet() && FreshIds(w.cfg) && NeutralConverter(w.cfg)
    requires Handle(w, run, userId, req, agent, b).start.Some? && Yields(agent, Events(turns))
    requires AllTurns(LeftTurns(w.cfg.converter, turns)) && SmoothAll(w.cfg, Events(turns))
    ensures NoneEmpty(turns) && NoneEmpty(LeftTurns(w.cfg.converter, turns))
    ensures Texts(Handle(w, run, userId, req, agent, b).sys.offered)
            == Gather(TextOfEvent, LeftAll(w.cfg.converter, LastEvents(turns)))
            <==> SpeakAlone(LeftTurns(w.cfg.converter, turns))
  {
    hide Launch, Handle, OfStream, Texts, Bubbles, AllTurns, SmoothAll, Prepared, Streamed, OnlyNeutral, Yields;
    hide SpeakAlone, TextOfEvent;
    StartedIsLaunched(w, run, userId, req, agent, b);
    var (b', session) := Prepared(w, run, userId, req, b);
    var sys := Admitted(run, userId, req);
    NothingSaidYet();
    OfferSilent(Sys(Initial(run), []), RunStarted(run.threadId, run.runId));
    LaunchStreams(w, req, agent, session.value, sys, b', Events(turns));
    TurnsAreMessages(w.cfg, turns, OfferState(Snapshot(session.value, StateOf(req)), sys));
  }

  // ----- a real case of one message for two turns

  /** Two turns that are one text each, "A" and "B", and complete no turn. */
  function TwoTexts(): seq<Event> {
    [Says("A", false, true), Says("A", false, false), Says("B", false, true), Says("B", false, false)]
  }

  lemma SaysSpoken(text: string, partial: bool, events: seq<Event>, v: Voice)
    requires text != ""
    ensures var w := SpeakEvents(events, v);
            SpeakEvents(events + [Says(text, false, partial)], v) ==
            if partial then Voice(Said(w.texts, w.open, text), true, 0) else w.(emitted := 0)
  {
    var ev, p := Says(text, false, partial), Part(text, false, None, None);
    assert (events + [ev])[..|events|] == events;
    assert PartsOf(ev) == [p] && [p][..0] == [];
    var w := SpeakEvents(events, v);
    assert SpeakParts(partial, [p], w) == Speak(partial, p, w);
  }

  lemma TwoTextsSpoken()
    ensures SpeakEvents(TwoTexts(), SILENT).texts == ["AB"]
  {
    hide SpeakEvents, Says, Said;
    var all := TwoTexts();
    NothingSpokenYet();
    SaysSpoken("A", true, [], SILENT);
    assert [] + [all[0]] == [all[0]];
    SaysSpoken("A", false, [all[0]], SILENT);
    assert [all[0]] + [all[1]] == [all[0], all[1]];
    SaysSpoken("B", true, [all[0], all[1]], SILENT);
    assert [all[0], all[1]] + [all[2]] == [all[0], all[1], all[2]];
    SaysSpoken("B", false, [all[0], all[1], all[2]], SILENT);
    assert [all[0], all[1], all[2]] + [all[3]] == all;
    SaidTwice();
  }

  lemma SaidTwice()
    ensures Said([], false, "A") == ["A"] && Said(["A"], true, "B") == ["AB"]
  {
    assert "A" + "B" == "AB";
  }

  lemma NothingSpokenYet()
    ensures SpeakEvents([], SILENT) == SILENT
  {
  }

  /** Final events that complete no turn leave the message open: the client has both texts
      in one message. */
  lemma OpenMessageSpansTurns(cfg: Config, run: RunInfo)
    requires cfg.converter == None && FreshIds(cfg)
    ensures Texts(Streamed(cfg, TwoTexts(), 0, Sys(Initial(run), [])).offered) == ["AB"]
  {
    hide OfStream, Texts, Bubbles, Streamed, SpeakEvents, LeftAll;
    NothingSaidYet();
    TwoTextsSpoken();
    LeftAsTheyAre(TwoTexts());
    TextsReconstruct(cfg, TwoTexts(), Sys(Initial(run), []));
  }
}
