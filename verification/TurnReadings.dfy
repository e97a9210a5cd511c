/** What the stream shows of model turns, and what history holds of them, when a converter
    takes over some of their parts. */
module TurnReadings {
  import opened Values
  import opened Sequences
  import opened Adk
  import opened Protocol
  import opened Launcher
  import opened Convert
  import opened StreamSpec
  import opened Projections
  import opened ConvertLaws
  import opened Agreement
  import opened Halting
  import opened Turns

  // ----- what the stream shows of turns, with a converter

  /** The activities of some events, in order. */
  function CardsAll(converter: Option<Converter>, events: seq<Event>): seq<Card> {
    if events == [] then []
    else
      var last := events[|events| - 1];
      CardsAll(converter, events[..|events| - 1]) + Cards(converter, last, PartsOf(last))
  }

  lemma CardsSnoc(converter: Option<Converter>, events: seq<Event>, ev: Event)
    ensures CardsAll(converter, events + [ev]) == CardsAll(converter, events) + Cards(converter, ev, PartsOf(ev))
  {
    assert (events + [ev])[..|events|] == events;
  }

  lemma {:induction false} CardsAppend(converter: Option<Converter>, a: seq<Event>, b: seq<Event>)
    ensures CardsAll(converter, a + b) == CardsAll(converter, a) + CardsAll(converter, b)
    decreases |b|
  {
    hide Cards, CardsAll;
    if b == [] {
      assert a + b == a;
      NoEventsNoCards(converter);
    } else {
      var front, last := b[..|b| - 1], b[|b| - 1];
      CardsAppend(converter, a, front);
      CardsSnoc(converter, front, last);
      CardsSnoc(converter, a + front, last);
      assert b == front + [last];
      assert a + b == a + front + [last];
    }
  }

  lemma NoEventsNoCards(converter: Option<Converter>)
    ensures CardsAll(converter, []) == []
  {
  }

  lemma {:induction false} ReadCards(converter: Option<Converter>, events: seq<Event>)
    ensures ReadAll(converter, events).cards == CardsAll(converter, events)
  {
    if events != [] {
      ReadCards(converter, events[..|events| - 1]);
    }
  }

  lemma {:induction false} ShownAppend(converter: Option<Converter>, a: seq<Event>, b: seq<Event>)
    ensures ShownAll(converter, a + b) == Plus(ShownAll(converter, a), ShownAll(converter, b))
    decreases |b|
  {
    hide EventShown;
    if b == [] {
      assert a + b == a;
      PlusNothing(ShownAll(converter, a));
    } else {
      ShownAppend(converter, a, b[..|b| - 1]);
      assert (a + b)[..|a + b| - 1] == a + b[..|b| - 1];
      PlusAssociates(ShownAll(converter, a), ShownAll(converter, b[..|b| - 1]), EventShown(converter, b[|b| - 1]));
    }
  }

  lemma {:induction false} LeftFront(converter: Option<Converter>, events: seq<Event>)
    requires events != []
    ensures LeftAll(converter, events)[..|events| - 1] == LeftAll(converter, events[..|events| - 1])
    ensures LeftAll(converter, events)[|events| - 1] == Left(converter, events[|events| - 1])
  {
  }

  /** Partial events show the texts, calls and results of their untaken parts in a row. */
  lemma {:induction false} ShownPartials(converter: Option<Converter>, events: seq<Event>)
    requires PartialEvents(events)
    ensures ShownAll(converter, events) ==
            Streams(true, OfParts(Gather(PartsOf, LeftAll(converter, events)))).(cards := CardsAll(converter, events))
  {
    hide OfParts, Left;
    var left := LeftAll(converter, events);
    if events == [] {
      NothingRead();
    } else {
      var front, last := events[..|events| - 1], events[|events| - 1];
      ShownPartials(converter, front);
      LeftFront(converter, events);
      LeftParts(converter, last);
      PartsAppend(Gather(PartsOf, LeftAll(converter, front)), Untaken(converter, last, PartsOf(last)));
      StreamsPlus(true, OfParts(Gather(PartsOf, LeftAll(converter, front))),
                  OfParts(Untaken(converter, last, PartsOf(last))));
    }
  }

  lemma {:induction false} NoCallsSpoken(parts: seq<Part>)
    requires forall i :: 0 <= i < |parts| ==> !IsCall(parts[i]) && !IsResponse(parts[i])
    ensures OfParts(parts).calls == [] && OfParts(parts).results == []
  {
    GatherNothing(PartCall, parts);
    GatherNothing(PartResult, parts);
  }

  /** A turn shows the text, calls and results of its final event, and all its activities. */
  lemma TurnShown(converter: Option<Converter>, turn: seq<Event>)
    requires turn != [] && IsTurn(LeftAll(converter, turn))
    ensures ShownAll(converter, turn) ==
            ReadEvent(converter, Final(turn)).(thought := "", cards := CardsAll(converter, turn))
  {
    hide OfParts, Left, Gather;
    var partials, last := turn[..|turn| - 1], Final(turn);
    LeftFront(converter, turn);
    LeftKeeps(converter, last);
    LeftParts(converter, last);
    PartialsKept(converter, partials);
    ShownPartials(converter, partials);
    NoCallsSpoken(Gather(PartsOf, LeftAll(converter, partials)));
  }

  lemma LeftKeeps(converter: Option<Converter>, ev: Event)
    ensures var left := Left(converter, ev);
            && left.partial == ev.partial && left.turnComplete == ev.turnComplete
            && (left.content.Some? <==> ev.content.Some?)
  {
  }

  lemma PartialsKept(converter: Option<Converter>, events: seq<Event>)
    requires PartialEvents(LeftAll(converter, events))
    ensures PartialEvents(events)
  {
    hide Left;
    forall i | 0 <= i < |events|
      ensures events[i].partial && !events[i].turnComplete
    {
      LeftKeeps(converter, events[i]);
      assert LeftAll(converter, events)[i] == Left(converter, events[i]);
    }
  }

  // ----- turns without the parts taken over

  function LeftTurns(converter: Option<Converter>, turns: seq<seq<Event>>): (left: seq<seq<Event>>)
    ensures |left| == |turns|
  {
    seq(|turns|, i requires 0 <= i < |turns| => LeftAll(converter, turns[i]))
  }

  lemma {:induction false} LeftTurnsFront(converter: Option<Converter>, turns: seq<seq<Event>>)
    requires turns != []
    ensures LeftTurns(converter, turns)[..|turns| - 1] == LeftTurns(converter, turns[..|turns| - 1])
    ensures LeftTurns(converter, turns)[|turns| - 1] == LeftAll(converter, turns[|turns| - 1])
  {
  }

  lemma LeftTurnsNotEmpty(converter: Option<Converter>, turns: seq<seq<Event>>)
    requires AllTurns(LeftTurns(converter, turns))
    ensures NoneEmpty(turns) && NoneEmpty(LeftTurns(converter, turns))
  {
    hide IsTurn, LeftAll;
    forall i | 0 <= i < |turns|
      ensures turns[i] != [] && LeftTurns(converter, turns)[i] != []
    {
      TurnNotEmpty(LeftTurns(converter, turns)[i]);
    }
  }

  lemma TurnNotEmpty(turn: seq<Event>)
    requires IsTurn(turn)
    ensures turn != []
  {
  }

  lemma LeftAppend(converter: Option<Converter>, a: seq<Event>, b: seq<Event>)
    ensures LeftAll(converter, a + b) == LeftAll(converter, a) + LeftAll(converter, b)
  {
    hide Left;
  }

  lemma {:induction false} LeftOfTurns(converter: Option<Converter>, turns: seq<seq<Event>>)
    requires NoneEmpty(turns) && NoneEmpty(LeftTurns(converter, turns))
    ensures Events(LeftTurns(converter, turns)) == LeftAll(converter, Events(turns))
    ensures LastEvents(LeftTurns(converter, turns)) == LeftAll(converter, LastEvents(turns))
  {
    hide Left;
    if turns != [] {
      var front, turn := turns[..|turns| - 1], turns[|turns| - 1];
      LeftTurnsFront(converter, turns);
      LeftOfTurns(converter, front);
      LeftAppend(converter, Events(front), turn);
      LeftAppend(converter, LastEvents(front), [Final(turn)]);
      LeftFront(converter, turn);
      assert LeftAll(converter, [Final(turn)]) == [Left(converter, Final(turn))];
    }
  }

  /** Texts, calls and results; thoughts and activities apart. */
  ghost predicate SameContent(a: Reading, b: Reading) {
    a.text == b.text && a.calls == b.calls && a.results == b.results
  }

  lemma {:induction false} TurnsShown(converter: Option<Converter>, turns: seq<seq<Event>>)
    requires NoneEmpty(turns) && AllTurns(LeftTurns(converter, turns))
    ensures SameContent(ShownAll(converter, Events(turns)), ReadAll(converter, LastEvents(turns)))
    ensures ShownAll(converter, Events(turns)).cards == CardsAll(converter, Events(turns))
  {
    hide IsTurn, EventShown, ReadEvent, LeftAll, Cards;
    if turns != [] {
      var front, turn := turns[..|turns| - 1], turns[|turns| - 1];
      LeftTurnsFront(converter, turns);
      TurnsShown(converter, front);
      ShownAppend(converter, Events(front), turn);
      CardsAppend(converter, Events(front), turn);
      TurnShown(converter, turn);
    }
  }

  /** The converter makes no activity of a partial event. */
  predicate NoPartialCards(converter: Option<Converter>, turns: seq<seq<Event>>)
    requires NoneEmpty(turns)
  {
    forall i :: 0 <= i < |turns| ==> CardsAll(converter, turns[i][..|turns[i]| - 1]) == []
  }

  /** The stream never shows fewer activities than history, and the same ones exactly when
      partial events have none. */
  lemma {:induction false} CardsCounted(converter: Option<Converter>, turns: seq<seq<Event>>)
    requires NoneEmpty(turns)
    ensures |CardsAll(converter, Events(turns))| >= |CardsAll(converter, LastEvents(turns))|
    ensures |CardsAll(converter, Events(turns))| == |CardsAll(converter, LastEvents(turns))| <==>
              NoPartialCards(converter, turns)
    ensures NoPartialCards(converter, turns) ==>
              CardsAll(converter, Events(turns)) == CardsAll(converter, LastEvents(turns))
  {
    if turns != [] {
      hide Cards, CardsAll, NoPartialCards;
      var front, turn := turns[..|turns| - 1], turns[|turns| - 1];
      CardsCounted(converter, front);
      CardsAppend(converter, Events(front), turn);
      CardsSnoc(converter, turn[..|turn| - 1], Final(turn));
      assert turn == turn[..|turn| - 1] + [Final(turn)];
      CardsSnoc(converter, LastEvents(front), Final(turn));
      PartialCardsSnoc(converter, turns);
      Longer(CardsAll(converter, Events(front)), CardsAll(converter, LastEvents(front)),
             CardsAll(converter, turn[..|turn| - 1]), Cards(converter, Final(turn), PartsOf(Final(turn))));
    }
  }

  lemma Longer<T>(a: seq<T>, b: seq<T>, more: seq<T>, last: seq<T>)
    requires |a| >= |b|
    ensures |a + (more + last)| >= |b + last|
    ensures |a + (more + last)| == |b + last| <==> |a| == |b| && more == []
    ensures a == b && more == [] ==> a + (more + last) == b + last
  {
  }

  lemma PartialCardsSnoc(converter: Option<Converter>, turns: seq<seq<Event>>)
    requires turns != [] && NoneEmpty(turns)
    ensures var front, turn := turns[..|turns| - 1], turns[|turns| - 1];
            NoPartialCards(converter, turns) <==>
              NoPartialCards(converter, front) && CardsAll(converter, turn[..|turn| - 1]) == []
  {
    hide CardsAll;
    var front := turns[..|turns| - 1];
    assert forall i :: 0 <= i < |front| ==> front[i] == turns[i];
  }

  // ----- the same turns in history

  function Stored(events: seq<Event>): seq<Option<Event>> {
    seq(|events|, i requires 0 <= i < |events| => Some(events[i]))
  }

  function WithContent(ev: Event): seq<Event> {
    if ev.content.Some? then [ev] else []
  }

  lemma {:induction false} StoredEligible(events: seq<Event>)
    ensures EligibleOnly(None, Stored(events)) == Gather(WithContent, events)
  {
    if events != [] {
      var front := events[..|events| - 1];
      StoredEligible(front);
      assert Stored(events)[..|events| - 1] == Stored(front);
    }
  }

  function FinalWithContent(ev: Event): seq<Event> {
    if ev.content.Some? && !ev.partial then [ev] else []
  }

  lemma {:induction false} FinalsOnly(events: seq<Event>)
    ensures Finals(Gather(WithContent, events)) == Gather(FinalWithContent, events)
  {
    if events != [] {
      var front, last := events[..|events| - 1], events[|events| - 1];
      FinalsOnly(front);
      GatherAppend(FinalEvent, Gather(WithContent, front), WithContent(last));
      if last.content.Some? {
        GatherOne(FinalEvent, last);
      }
    }
  }

  /** What history converts of some turns: their final events. */
  lemma {:induction false} TurnsConverted(cfg: Config, turns: seq<seq<Event>>)
    requires NoneEmpty(turns) && AllTurns(LeftTurns(cfg.converter, turns))
    ensures Converted(HistoryConfig(cfg), Stored(Events(turns))) == Gather(WithContent, LastEvents(turns))
  {
    hide IsTurn;
    StoredEligible(Events(turns));
    FinalsOnly(Events(turns));
    FinalsOfTurns(cfg.converter, turns);
  }

  lemma TurnShape(converter: Option<Converter>, turn: seq<Event>)
    requires turn != [] && IsTurn(LeftAll(converter, turn))
    ensures !Final(turn).partial && forall i :: 0 <= i < |turn| - 1 ==> turn[i].partial
  {
    hide Left, Gather, OfParts, Spoken, Longest;
    LeftFront(converter, turn);
    LeftKeeps(converter, Final(turn));
    PartialsKept(converter, turn[..|turn| - 1]);
  }

  lemma FinalOfTurn(converter: Option<Converter>, turn: seq<Event>)
    requires turn != [] && IsTurn(LeftAll(converter, turn))
    ensures Gather(FinalWithContent, turn) == WithContent(Final(turn))
  {
    hide IsTurn, LeftAll, Gather;
    TurnShape(converter, turn);
    assert turn == turn[..|turn| - 1] + [Final(turn)];
    GatherNothing(FinalWithContent, turn[..|turn| - 1]);
    GatherSnoc(FinalWithContent, turn[..|turn| - 1], Final(turn));
  }

  lemma {:induction false} FinalsOfTurns(converter: Option<Converter>, turns: seq<seq<Event>>)
    requires NoneEmpty(turns) && AllTurns(LeftTurns(converter, turns))
    ensures Gather(FinalWithContent, Events(turns)) == Gather(WithContent, LastEvents(turns))
  {
    if turns != [] {
      hide IsTurn, LeftAll, Gather, WithContent;
      var front, turn := turns[..|turns| - 1], turns[|turns| - 1];
      LeftTurnsFront(converter, turns);
      FinalsOfTurns(converter, front);
      FinalOfTurn(converter, turn);
      GatherAppend(FinalWithContent, Events(front), turn);
      GatherSnoc(WithContent, LastEvents(front), Final(turn));
    }
  }

  lemma {:induction false} SmoothConverts(c: Config, ev: Event, parts: seq<Part>)
    requires forall i :: 0 <= i < |parts| ==> !EndsRun(c, ev, parts[i])
    ensures ConvertParts(HistoryConfig(c), ev, parts).Some?
  {
    hide Folded;
    if parts != [] {
      SmoothConverts(c, ev, parts[..|parts| - 1]);
    }
  }

  lemma {:induction false} AllSmoothConvert(c: Config, events: seq<Event>)
    requires SmoothAll(c, events)
    ensures ConvertAll(HistoryConfig(c), events).Some?
  {
    hide ConvertParts, Flush, EndsRun;
    if events != [] {
      AllSmoothConvert(c, events[..|events| - 1]);
      var last := events[|events| - 1];
      SmoothConverts(c, last, PartsOf(last));
    }
  }

  /** The reasoning messages among converted messages. */
  function ThoughtMessage(m: Message): seq<string> {
    if m.role.Reasoning? && m.content.Str? then [m.content.s] else []
  }

  lemma EventThoughts(cfg: ConvertConfig, ev: Event)
    requires OnlyNeutral(cfg.converter) && ConvertEvent(cfg, ev).Some?
    ensures Gather(ThoughtMessage, ConvertEvent(cfg, ev).value) == ThoughtOfEvent(Left(cfg.converter, ev))
  {
    hide OfParts, OfMessages, ConvertParts, OnlyNeutral, ReadEvent;
    EventConserves(cfg, ev);
    LeftParts(cfg.converter, ev);
    TailThoughts(ev, ConvertParts(cfg, ev, PartsOf(ev)).value);
  }

  lemma Thoughtless(messages: seq<Message>, m: Message)
    requires ThoughtMessage(m) == []
    ensures Gather(ThoughtMessage, messages + [m]) == Gather(ThoughtMessage, messages)
  {
    GatherSnoc(ThoughtMessage, messages, m);
  }

  lemma TailThoughts(ev: Event, b: Buffers)
    requires Unflushed(ev, b)
    ensures Gather(ThoughtMessage, Flush(ev, b)) == ThoughtList(b.thought)
  {
    hide MessageId, Gather;
    GatherNothing(ThoughtMessage, b.messages);
    var withCalls := if b.calls == [] then b.messages
                     else b.messages + [CallMessage(MessageId(ev.id, |b.messages|), RoleOf(ev), b.calls)];
    Thoughtless(b.messages, CallMessage(MessageId(ev.id, |b.messages|), RoleOf(ev), b.calls));
    var withText := FlushText(ev, b.(messages := withCalls)).messages;
    Thoughtless(withCalls, TextMessage(MessageId(ev.id, |withCalls|), RoleOf(ev), b.text));
    GatherSnoc(ThoughtMessage, withText, TextMessage(MessageId(ev.id, |withText|), Reasoning, b.thought));
  }

  lemma {:induction false} AllThoughts(cfg: ConvertConfig, events: seq<Event>)
    requires OnlyNeutral(cfg.converter) && ConvertAll(cfg, events).Some?
    ensures Gather(ThoughtMessage, ConvertAll(cfg, events).value)
         == Gather(ThoughtOfEvent, LeftAll(cfg.converter, events))
  {
    hide ConvertEvent, ThoughtOfEvent, OnlyNeutral, Left;
    if events != [] {
      var front, last := events[..|events| - 1], events[|events| - 1];
      AllThoughts(cfg, front);
      EventThoughts(cfg, last);
      LeftFront(cfg.converter, events);
      GatherAppend(ThoughtMessage, ConvertAll(cfg, front).value, ConvertEvent(cfg, last).value);
    }
  }

  /** Events without content contribute nothing to any reading. */
  lemma {:induction false} ContentlessAddNothing(converter: Option<Converter>, events: seq<Event>)
    ensures ReadAll(converter, Gather(WithContent, events)) == ReadAll(converter, events)
    ensures Gather(ThoughtOfEvent, LeftAll(converter, Gather(WithContent, events)))
         == Gather(ThoughtOfEvent, LeftAll(converter, events))
  {
    hide ThoughtOfEvent, ReadEvent, Left, LeftAll, ReadAll, Gather, Plus;
    if events == [] {
      NothingKept();
    } else {
      var front, last := events[..|events| - 1], events[|events| - 1];
      var kept := Gather(WithContent, front);
      ContentlessAddNothing(converter, front);
      assert events == front + [last];
      GatherSnoc(WithContent, front, last);
      OneMore(converter, front, last);
      if last.content.Some? {
        OneMore(converter, kept, last);
      } else {
        assert kept + [] == kept;
        NoPartsNoThought(converter, last);
        PlusNothing(ReadAll(converter, front));
      }
    }
  }

  lemma NothingKept()
    ensures Gather(WithContent, []) == []
  {
  }

  lemma OneMore(converter: Option<Converter>, events: seq<Event>, ev: Event)
    ensures ReadAll(converter, events + [ev]) == Plus(ReadAll(converter, events), ReadEvent(converter, ev))
    ensures Gather(ThoughtOfEvent, LeftAll(converter, events + [ev]))
         == Gather(ThoughtOfEvent, LeftAll(converter, events)) + ThoughtOfEvent(Left(converter, ev))
  {
    hide ThoughtOfEvent, ReadEvent, Left;
    assert (events + [ev])[..|events|] == events;
    LeftFront(converter, events + [ev]);
  }

  lemma NoPartsNoThought(converter: Option<Converter>, ev: Event)
    requires ev.content.None?
    ensures ThoughtOfEvent(Left(converter, ev)) == [] && ReadEvent(converter, ev) == NOTHING
  {
    assert PartsOf(ev) == [];
  }

  lemma {:induction false} SmoothFinals(cfg: Config, turns: seq<seq<Event>>)
    requires NoneEmpty(turns) && SmoothAll(cfg, Events(turns))
    ensures SmoothAll(cfg, Gather(WithContent, LastEvents(turns)))
  {
    hide SmoothEvent;
    if turns != [] {
      var front, turn := turns[..|turns| - 1], turns[|turns| - 1];
      var all := Events(turns);
      assert forall i :: 0 <= i < |Events(front)| ==> all[i] == Events(front)[i];
      SmoothFinals(cfg, front);
      assert all[|all| - 1] == Final(turn);
      GatherSnoc(WithContent, LastEvents(front), Final(turn));
    }
  }

  lemma {:induction false} ThoughtsJoin(messages: seq<Message>)
    ensures OfMessages(messages).thought == Gather(Same, Gather(ThoughtMessage, messages))
  {
    if messages != [] {
      var front, last := messages[..|messages| - 1], messages[|messages| - 1];
      ThoughtsJoin(front);
      GatherAppend(Same, Gather(ThoughtMessage, front), ThoughtMessage(last));
      if ThoughtMessage(last) != [] {
        GatherOne(Same, last.content.s);
      }
    }
  }
}
