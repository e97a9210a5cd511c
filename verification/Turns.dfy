/** Model turns, and what a client hears of their thoughts. */
module Turns {
  import opened Sequences
  import opened Adk
  import opened Projections
  import opened Agreement

  // ----- turns

  /** The longest accumulated thought among some parts; of equal ones the first. */
  function Longest(parts: seq<Part>): string {
    if parts == [] then ""
    else
      var before, last := Longest(parts[..|parts| - 1]), parts[|parts| - 1];
      if IsThought(last) && |last.text| > |before| then last.text else before
  }

  predicate HasText(parts: seq<Part>) {
    exists i :: 0 <= i < |parts| && IsText(parts[i])
  }

  /** Partial parts of a turn: no calls or responses, thoughts before texts, and every
      longer thought continuing the longest before it. */
  predicate Spoken(parts: seq<Part>) {
    && (forall i :: 0 <= i < |parts| ==> !IsCall(parts[i]) && !IsResponse(parts[i]))
    && (forall i, j :: 0 <= i < j < |parts| && IsText(parts[i]) ==> !IsThought(parts[j]))
    && (forall i :: 0 <= i < |parts| && IsThought(parts[i]) && |parts[i].text| > |Longest(parts[..i])| ==>
          Longest(parts[..i]) <= parts[i].text)
  }

  predicate PartialEvents(events: seq<Event>) {
    forall i :: 0 <= i < |events| ==> events[i].partial && !events[i].turnComplete
  }

  /** A final event that ends the reasoning phase: it has text or a call, or completes the turn. */
  predicate EndsPhase(ev: Event) {
    ev.turnComplete || exists i :: 0 <= i < |PartsOf(ev)| && (IsText(PartsOf(ev)[i]) || IsCall(PartsOf(ev)[i]))
  }

  /** One model turn: partial events, then the final event with the whole thought, the
      whole text, the calls and the responses. A final event without text and thought, such
      as a tool result or a state change, is a turn of its own. */
  predicate IsTurn(turn: seq<Event>) {
    turn != [] &&
    var partials, last := turn[..|turn| - 1], turn[|turn| - 1];
    var spoken, said := Gather(PartsOf, partials), OfParts(PartsOf(last));
    && PartialEvents(partials) && Spoken(spoken) && !last.partial
    && said.thought == Longest(spoken)
    && said.text == OfParts(spoken).text
  }

  // ----- hearing one turn

  lemma {:induction false} HearPartsAppend(partial: bool, a: seq<Part>, b: seq<Part>, h: Heard)
    ensures HearParts(partial, a + b, h) == HearParts(partial, b, HearParts(partial, a, h))
    decreases |b|
  {
    if b == [] {
      assert a + b == a;
    } else {
      HearPartsAppend(partial, a, b[..|b| - 1], h);
      assert (a + b)[..|a + b| - 1] == a + b[..|b| - 1];
    }
  }

  lemma {:induction false} HearEventsAppend(a: seq<Event>, b: seq<Event>, h: Heard)
    ensures HearEvents(a + b, h) == HearEvents(b, HearEvents(a, h))
    decreases |b|
  {
    if b == [] {
      assert a + b == a;
    } else {
      HearEventsAppend(a, b[..|b| - 1], h);
      assert (a + b)[..|a + b| - 1] == a + b[..|b| - 1];
    }
  }

  /** Partial events are heard like their parts in a row. */
  lemma {:induction false} HearFlat(events: seq<Event>, h: Heard)
    requires PartialEvents(events)
    ensures HearEvents(events, h) == HearParts(true, Gather(PartsOf, events), h)
  {
    if events != [] {
      var front, last := events[..|events| - 1], events[|events| - 1];
      HearFlat(front, h);
      HearPartsAppend(true, Gather(PartsOf, front), PartsOf(last), h);
    }
  }

  /** Spoken parts from a closed phase: the longest thought is heard, and closed by the first text. */
  lemma {:induction false} HearSpoken(parts: seq<Part>, done: seq<string>)
    requires Spoken(parts)
    ensures var h := HearParts(true, parts, Heard(done, ""));
            if HasText(parts) then h == Settle(Heard(done, Longest(parts))) else h == Heard(done, Longest(parts))
  {
    if parts != [] {
      var front, last := parts[..|parts| - 1], parts[|parts| - 1];
      SpokenPrefix(parts, |parts| - 1);
      HearSpoken(front, done);
      assert HasText(parts) <==> HasText(front) || IsText(last) by {
        HasTextSnoc(front, last);
        assert parts == front + [last];
      }
    }
  }

  lemma HasTextSnoc(parts: seq<Part>, p: Part)
    ensures HasText(parts + [p]) <==> HasText(parts) || IsText(p)
  {
    var all := parts + [p];
    assert all[|parts|] == p;
    if HasText(parts) {
      var i :| 0 <= i < |parts| && IsText(parts[i]);
      assert all[i] == parts[i];
    }
  }

  lemma SpokenPrefix(parts: seq<Part>, n: nat)
    requires Spoken(parts) && n <= |parts|
    ensures Spoken(parts[..n])
  {
    forall i | 0 <= i < n
      ensures parts[..n][..i] == parts[..i]
    {
    }
  }

  lemma SpokenContinues(parts: seq<Part>, done: seq<string>)
    requires Spoken(parts)
    ensures ContinuesParts(true, parts, Heard(done, ""))
  {
    forall i | 0 <= i < |parts|
      ensures Continues(true, parts[i], HearParts(true, parts[..i], Heard(done, "")))
    {
      SpokenPrefix(parts, i);
      HearSpoken(parts[..i], done);
      if IsThought(parts[i]) {
        assert forall j :: 0 <= j < i ==> parts[..i][j] == parts[j];
        assert !HasText(parts[..i]);
      }
    }
  }

  /** Splitting spoken parts into events keeps every thought a continuation. */
  lemma FlatContinues(events: seq<Event>, h: Heard)
    requires PartialEvents(events) && ContinuesParts(true, Gather(PartsOf, events), h)
    ensures ContinuesAll(events, h)
  {
    hide HearParts, HearEvents, Continues, Gather;
    forall k | 0 <= k < |events|
      ensures ContinuesParts(events[k].partial, PartsOf(events[k]), HearEvents(events[..k], h))
    {
      var before, parts := Gather(PartsOf, events[..k]), PartsOf(events[k]);
      HearFlat(events[..k], h);
      GatherSnoc(PartsOf, events[..k], events[k]);
      assert events[..k + 1] == events[..k] + [events[k]];
      GatherPrefix(PartsOf, events[..k + 1], events);
      WindowContinues(before, parts, Gather(PartsOf, events), h);
    }
  }

  lemma WindowContinues(before: seq<Part>, parts: seq<Part>, all: seq<Part>, h: Heard)
    requires before + parts <= all && ContinuesParts(true, all, h)
    ensures ContinuesParts(true, parts, HearParts(true, before, h))
  {
    hide HearParts, Continues;
    forall i | 0 <= i < |parts|
      ensures Continues(true, parts[i], HearParts(true, parts[..i], HearParts(true, before, h)))
    {
      HearPartsAppend(true, before, parts[..i], h);
      assert all[..|before| + i] == before + parts[..i];
      assert all[|before| + i] == (before + parts)[|before| + i] == parts[i];
    }
  }

  /** The final event says no thought again; its first text or call closes the phase. */
  lemma {:induction false} HearFinal(parts: seq<Part>, h: Heard)
    ensures HearParts(false, parts, h) ==
            if exists i :: 0 <= i < |parts| && (IsText(parts[i]) || IsCall(parts[i])) then Settle(h) else h
  {
    if parts != [] {
      var front, last := parts[..|parts| - 1], parts[|parts| - 1];
      HearFinal(front, h);
      if i :| 0 <= i < |front| && (IsText(front[i]) || IsCall(front[i])) {
        assert parts[i] == front[i];
      }
      if i :| 0 <= i < |parts| - 1 && (IsText(parts[i]) || IsCall(parts[i])) {
        assert front[i] == parts[i];
      }
    }
  }

  lemma FinalContinues(parts: seq<Part>, h: Heard)
    ensures ContinuesParts(false, parts, h)
  {
  }

  /** One spoken part: a thought opens a message if nothing is open, a text closes. */
  lemma PartCounts(p: Part, h: Heard)
    requires !IsCall(p)
    ensures var after := Hear(true, p, h);
            && |AllBubbles(after)| == |AllBubbles(h)| + (if h.current == "" && IsThought(p) then 1 else 0)
            && (after.current == "" <==> IsText(p) || (h.current == "" && !IsThought(p)))
  {
  }

  lemma LongestSnoc(parts: seq<Part>, p: Part)
    ensures Longest(parts + [p]) == "" <==> Longest(parts) == "" && !IsThought(p)
  {
    assert (parts + [p])[..|parts|] == parts;
  }

  /** Spoken parts from any state: one more message if they think and nothing was open. */
  lemma {:induction false} SpokenCounts(parts: seq<Part>, h: Heard)
    requires Spoken(parts)
    ensures var after := HearParts(true, parts, h);
            && |AllBubbles(after)| == |AllBubbles(h)| + (if h.current == "" && Longest(parts) != "" then 1 else 0)
            && (after.current == "" <==> HasText(parts) || (h.current == "" && Longest(parts) == ""))
  {
    if parts != [] {
      var front, last := parts[..|parts| - 1], parts[|parts| - 1];
      SpokenPrefix(parts, |parts| - 1);
      SpokenCounts(front, h);
      hide Hear, Longest, AllBubbles, HasText;
      HasTextSnoc(front, last);
      LongestSnoc(front, last);
      PartCounts(last, HearParts(true, front, h));
      assert parts == front + [last];
      if IsThought(last) {
        NoTextBefore(parts);
      }
    }
  }

  lemma NoTextBefore(parts: seq<Part>)
    requires Spoken(parts) && parts != [] && IsThought(parts[|parts| - 1])
    ensures !HasText(parts[..|parts| - 1])
  {
    var front := parts[..|parts| - 1];
    assert forall i :: 0 <= i < |front| ==> front[i] == parts[i];
  }

  lemma {:induction false} ShortestHasNoThought(parts: seq<Part>)
    requires Longest(parts) == ""
    ensures forall i :: 0 <= i < |parts| ==> !IsThought(parts[i])
  {
    if parts != [] {
      var front := parts[..|parts| - 1];
      ShortestHasNoThought(front);
      assert forall i :: 0 <= i < |front| ==> front[i] == parts[i];
    }
  }

  lemma {:induction false} HearThoughtless(parts: seq<Part>, h: Heard)
    requires forall i :: 0 <= i < |parts| ==> !IsThought(parts[i])
    ensures HearParts(true, parts, h) in {h, Settle(h)} && ContinuesParts(true, parts, h)
  {
    if parts != [] {
      HearThoughtless(parts[..|parts| - 1], h);
    }
  }

  lemma {:induction false} TextIsThere(parts: seq<Part>)
    ensures HasText(parts) <==> OfParts(parts).text != ""
  {
    if parts != [] {
      var front, last := parts[..|parts| - 1], parts[|parts| - 1];
      TextIsThere(front);
      HasTextSnoc(front, last);
      PartsSnoc(front, last);
      assert parts == front + [last];
    }
  }

  lemma SpokenTextEndsPhase(turn: seq<Event>)
    requires IsTurn(turn) && HasText(Gather(PartsOf, turn[..|turn| - 1]))
    ensures EndsPhase(turn[|turn| - 1])
  {
    hide OfParts, Gather, Spoken, Longest;
    TextIsThere(Gather(PartsOf, turn[..|turn| - 1]));
    TextIsThere(PartsOf(turn[|turn| - 1]));
  }

  lemma HearLast(turn: seq<Event>, h: Heard)
    requires IsTurn(turn)
    ensures var heard, last := HearParts(true, Gather(PartsOf, turn[..|turn| - 1]), h), turn[|turn| - 1];
            && HearEvents(turn[..|turn| - 1], h) == heard
            && HearEvents(turn, h) in {heard, Settle(heard), Settle(Settle(heard))}
            && (HearEvents(turn, h) == heard || EndsPhase(last))
            && (EndsPhase(last) ==> HearEvents(turn, h) in {Settle(heard), Settle(Settle(heard))})
  {
    hide HearParts, Spoken, OfParts, Longest, Gather;
    HearFlat(turn[..|turn| - 1], h);
    HearFinal(PartsOf(turn[|turn| - 1]), HearEvents(turn[..|turn| - 1], h));
  }

  /** What a turn adds from any state: one message if it thinks and no phase was open; the
      phase is open afterwards unless the final event ends it. */
  lemma TurnCounts(turn: seq<Event>, h: Heard)
    requires IsTurn(turn)
    ensures var after, last := HearEvents(turn, h), turn[|turn| - 1];
            var thinks := OfParts(PartsOf(last)).thought != "";
            && |AllBubbles(after)| == |AllBubbles(h)| + (if h.current == "" && thinks then 1 else 0)
            && (after.current != "" <==> !EndsPhase(last) && (h.current != "" || thinks))
  {
    hide HearParts, HearEvents, HasText, OfParts, Longest, PartialEvents, Gather, EndsPhase;
    var spoken := Gather(PartsOf, turn[..|turn| - 1]);
    HearLast(turn, h);
    SpokenCounts(spoken, h);
    if HasText(spoken) {
      SpokenTextEndsPhase(turn);
    }
  }

  function ThoughtList(thought: string): seq<string> {
    if thought == "" then [] else [thought]
  }

  function ThoughtOfEvent(ev: Event): seq<string> {
    ThoughtList(OfParts(PartsOf(ev)).thought)
  }

  /** A turn without a thought, or from a closed phase, adds exactly its whole thought. */
  lemma TurnHeard(turn: seq<Event>, h: Heard)
    requires IsTurn(turn) && (OfParts(PartsOf(turn[|turn| - 1])).thought == "" || h.current == "")
    ensures AllBubbles(HearEvents(turn, h)) == AllBubbles(h) + ThoughtOfEvent(turn[|turn| - 1])
    ensures ContinuesAll(turn, h)
  {
    hide HearParts, Spoken, HasText, OfParts, Longest, PartialEvents, ContinuesParts, Gather, EndsPhase;
    var partials, last := turn[..|turn| - 1], turn[|turn| - 1];
    var spoken := Gather(PartsOf, partials);
    HearLast(turn, h);
    if h.current == "" {
      assert h == Heard(h.done, "");
      HearSpoken(spoken, h.done);
      SpokenContinues(spoken, h.done);
    } else {
      ShortestHasNoThought(spoken);
      HearThoughtless(spoken, h);
    }
    FlatContinues(partials, h);
    FinalContinues(PartsOf(last), HearEvents(partials, h));
    LastContinues(partials, last, h);
    assert turn == partials + [last];
  }

  lemma LastContinues(events: seq<Event>, last: Event, h: Heard)
    requires ContinuesAll(events, h) && ContinuesParts(last.partial, PartsOf(last), HearEvents(events, h))
    ensures ContinuesAll(events + [last], h)
  {
    hide HearEvents, ContinuesParts;
    var all := events + [last];
    forall k | 0 <= k < |all|
      ensures ContinuesParts(all[k].partial, PartsOf(all[k]), HearEvents(all[..k], h))
    {
      assert all[..k] == events[..k];
      if k == |events| {
        assert events[..k] == events;
      }
    }
  }

  // ----- many turns

  predicate AllTurns(turns: seq<seq<Event>>) {
    forall i :: 0 <= i < |turns| ==> IsTurn(turns[i])
  }

  predicate NoneEmpty(turns: seq<seq<Event>>) {
    forall i :: 0 <= i < |turns| ==> turns[i] != []
  }

  function Events(turns: seq<seq<Event>>): seq<Event> {
    if turns == [] then [] else Events(turns[..|turns| - 1]) + turns[|turns| - 1]
  }

  function Final(turn: seq<Event>): Event
    requires turn != []
  {
    turn[|turn| - 1]
  }

  /** The final events: one per turn. */
  function LastEvents(turns: seq<seq<Event>>): seq<Event>
    requires NoneEmpty(turns)
  {
    if turns == [] then [] else LastEvents(turns[..|turns| - 1]) + [Final(turns[|turns| - 1])]
  }

  predicate Thinks(ev: Event) {
    OfParts(PartsOf(ev)).thought != ""
  }

  /** Whether a reasoning phase is open after some turns: a turn thought, and no final event
      has ended the phase since. */
  predicate OpenAfterTurns(turns: seq<seq<Event>>)
    requires NoneEmpty(turns)
  {
    turns != [] &&
    var front, last := turns[..|turns| - 1], Final(turns[|turns| - 1]);
    !EndsPhase(last) && (OpenAfterTurns(front) || Thinks(last))
  }

  /** No turn starts a thought in a phase that is still open. */
  predicate Clean(turns: seq<seq<Event>>)
    requires NoneEmpty(turns)
  {
    turns == [] ||
    var front, last := turns[..|turns| - 1], Final(turns[|turns| - 1]);
    Clean(front) && (Thinks(last) ==> !OpenAfterTurns(front))
  }

  /** In particular turns whose thoughts all end their phase are clean. */
  lemma {:induction false} EndedTurnsAreClean(turns: seq<seq<Event>>)
    requires NoneEmpty(turns)
    requires forall i :: 0 <= i < |turns| && Thinks(Final(turns[i])) ==> EndsPhase(Final(turns[i]))
    ensures Clean(turns) && !OpenAfterTurns(turns)
  {
    hide Thinks, EndsPhase;
    if turns != [] {
      EndedTurnsAreClean(turns[..|turns| - 1]);
    }
  }

  const SILENCE := Heard([], "")

  /** The count behind agreement: a client never has more reasoning messages than there are
      thoughts, and as many exactly when every turn with a thought found the phase closed. */
  lemma {:induction false} TurnsCounted(turns: seq<seq<Event>>)
    requires AllTurns(turns) && NoneEmpty(turns)
    ensures var after, thoughts := HearEvents(Events(turns), SILENCE), Gather(ThoughtOfEvent, LastEvents(turns));
            && |AllBubbles(after)| <= |thoughts|
            && (|AllBubbles(after)| == |thoughts| <==> Clean(turns))
            && (after.current != "" <==> OpenAfterTurns(turns))
  {
    hide OfParts, IsTurn, HearEvent, EndsPhase;
    if turns != [] {
      var front, turn := turns[..|turns| - 1], turns[|turns| - 1];
      TurnsCounted(front);
      HearEventsAppend(Events(front), turn, SILENCE);
      TurnCounts(turn, HearEvents(Events(front), SILENCE));
      GatherSnoc(ThoughtOfEvent, LastEvents(front), Final(turn));
    }
  }

  /** Clean turns are heard exactly: every thought as a message of its own. */
  lemma {:induction false} TurnsHeard(turns: seq<seq<Event>>)
    requires AllTurns(turns) && NoneEmpty(turns) && Clean(turns)
    ensures AllBubbles(HearEvents(Events(turns), SILENCE)) == Gather(ThoughtOfEvent, LastEvents(turns))
    ensures ContinuesAll(Events(turns), SILENCE)
  {
    hide OfParts, IsTurn, ContinuesParts, HearEvent, EndsPhase;
    if turns != [] {
      var front, turn := turns[..|turns| - 1], turns[|turns| - 1];
      TurnsHeard(front);
      TurnsCounted(front);
      NextTurnHeard(Events(front), turn);
      GatherSnoc(ThoughtOfEvent, LastEvents(front), Final(turn));
    }
  }

  lemma NextTurnHeard(events: seq<Event>, turn: seq<Event>)
    requires IsTurn(turn) && ContinuesAll(events, SILENCE)
    requires Thinks(Final(turn)) ==> HearEvents(events, SILENCE).current == ""
    ensures AllBubbles(HearEvents(events + turn, SILENCE)) ==
            AllBubbles(HearEvents(events, SILENCE)) + ThoughtOfEvent(Final(turn))
    ensures ContinuesAll(events + turn, SILENCE)
  {
    hide IsTurn, ContinuesAll, HearEvents, OfParts;
    var h := HearEvents(events, SILENCE);
    TurnHeard(turn, h);
    HearEventsAppend(events, turn, SILENCE);
    ContinuesAppend(events, turn, SILENCE);
  }

  lemma ContinuesAppend(a: seq<Event>, b: seq<Event>, h: Heard)
    requires ContinuesAll(a, h) && ContinuesAll(b, HearEvents(a, h))
    ensures ContinuesAll(a + b, h)
  {
    hide HearEvents, ContinuesParts, PartsOf;
    forall k | 0 <= k < |a + b|
      ensures ContinuesParts((a + b)[k].partial, PartsOf((a + b)[k]), HearEvents((a + b)[..k], h))
    {
      if k < |a| {
        assert (a + b)[..k] == a[..k] && (a + b)[k] == a[k];
      } else {
        var j := k - |a|;
        assert (a + b)[..k] == a + b[..j] && (a + b)[k] == b[j];
        HearEventsAppend(a, b[..j], h);
        assert ContinuesParts(b[j].partial, PartsOf(b[j]), HearEvents(b[..j], HearEvents(a, h)));
      }
    }
  }
}
