/** What converted history says: who speaks which text, the calls with their arguments, the
    results with their texts, and which stored events are converted at all. */
module HistoryContents {
  import opened Values
  import opened Sequences
  import opened Adk
  import opened Protocol
  import opened Launcher
  import opened Convert
  import opened Projections
  import opened ConvertLaws

  /** What is said by the user and by the assistant, the calls, and the results as the id of
      their call and their text. */
  datatype Talk = Talk(user: string, assistant: string, calls: seq<ToolCall>, results: seq<(string, string)>)

  const SILENCE := Talk("", "", [], [])

  function Join(a: Talk, b: Talk): Talk {
    Talk(a.user + b.user, a.assistant + b.assistant, a.calls + b.calls, a.results + b.results)
  }

  lemma JoinSilence(a: Talk)
    ensures Join(a, SILENCE) == a == Join(SILENCE, a)
  {
  }

  lemma JoinAssociates(a: Talk, b: Talk, c: Talk)
    ensures Join(Join(a, b), c) == Join(a, Join(b, c))
  {
  }

  // ----- of messages

  function Said(user: bool, text: string): Talk {
    if user then SILENCE.(user := text) else SILENCE.(assistant := text)
  }

  function OfMessageTalk(m: Message): Talk {
    match m.role
    case User => Talk(MessageText(m), "", m.toolCalls, [])
    case Assistant => Talk("", MessageText(m), m.toolCalls, [])
    case Tool => SILENCE.(results := ResultText(m))
    case _ => SILENCE
  }

  function TalkOf(messages: seq<Message>): Talk {
    if messages == [] then SILENCE
    else Join(TalkOf(messages[..|messages| - 1]), OfMessageTalk(messages[|messages| - 1]))
  }

  lemma TalkSnoc(messages: seq<Message>, m: Message)
    ensures TalkOf(messages + [m]) == Join(TalkOf(messages), OfMessageTalk(m))
  {
    assert (messages + [m])[..|messages|] == messages;
  }

  lemma {:induction false} TalkAppend(a: seq<Message>, b: seq<Message>)
    ensures TalkOf(a + b) == Join(TalkOf(a), TalkOf(b))
    decreases |b|
  {
    hide OfMessageTalk;
    if b == [] {
      assert a + b == a;
      JoinSilence(TalkOf(a));
    } else {
      var front, last := b[..|b| - 1], b[|b| - 1];
      TalkAppend(a, front);
      TalkSnoc(a + front, last);
      assert a + b == a + front + [last];
      JoinAssociates(TalkOf(a), TalkOf(front), OfMessageTalk(last));
    }
  }

  // ----- of parts and events

  /** Whether a map encodes in history: nil always does, as an empty object. */
  predicate Encodes(marshal: Marshal, m: Option<Fields>) {
    m.None? || marshal(m).Some?
  }

  function Encoded(marshal: Marshal, m: Option<Fields>): string
    requires Encodes(marshal, m)
  {
    if m.None? then "{}" else marshal(m).value
  }

  /** A part that history can show. */
  predicate Showable(marshal: Marshal, p: Part) {
    && (IsCall(p) ==> Encodes(marshal, p.call.value.args))
    && (IsResponse(p) ==> Encodes(marshal, p.response.value.response))
  }

  function OfPartTalk(marshal: Marshal, user: bool, p: Part): Talk
    requires Showable(marshal, p)
  {
    if IsText(p) then Said(user, p.text)
    else if IsCall(p) then
      SILENCE.(calls := [ToolCall(p.call.value.id, p.call.value.name, Encoded(marshal, p.call.value.args))])
    else if IsResponse(p) then
      SILENCE.(results := [(p.response.value.id, Encoded(marshal, p.response.value.response))])
    else SILENCE
  }

  predicate AllShowable(marshal: Marshal, parts: seq<Part>) {
    forall i :: 0 <= i < |parts| ==> Showable(marshal, parts[i])
  }

  function OfPartsTalk(marshal: Marshal, user: bool, parts: seq<Part>): Talk
    requires AllShowable(marshal, parts)
  {
    if parts == [] then SILENCE
    else Join(OfPartsTalk(marshal, user, parts[..|parts| - 1]), OfPartTalk(marshal, user, parts[|parts| - 1]))
  }

  /** A part that converts: the converter does not fail on it, and it encodes if it is left to the launcher. */
  predicate PartConverts(cfg: ConvertConfig, ev: Event, p: Part) {
    if Taken(cfg.converter, ev, p) then cfg.converter.value(ev, p).Handled? else Showable(cfg.marshal, p)
  }

  predicate EventConverts(cfg: ConvertConfig, ev: Event) {
    forall i :: 0 <= i < |PartsOf(ev)| ==> PartConverts(cfg, ev, PartsOf(ev)[i])
  }

  predicate FromUser(ev: Event) {
    ev.content.Some? && ev.content.value.role == "user"
  }

  lemma {:induction false} UntakenShowable(cfg: ConvertConfig, ev: Event, parts: seq<Part>)
    requires forall i :: 0 <= i < |parts| ==> PartConverts(cfg, ev, parts[i])
    ensures AllShowable(cfg.marshal, Untaken(cfg.converter, ev, parts))
  {
    hide Showable;
    if parts != [] {
      UntakenShowable(cfg, ev, parts[..|parts| - 1]);
    }
  }

  function EventTalk(cfg: ConvertConfig, ev: Event): Talk
    requires EventConverts(cfg, ev)
  {
    UntakenShowable(cfg, ev, PartsOf(ev));
    OfPartsTalk(cfg.marshal, FromUser(ev), Untaken(cfg.converter, ev, PartsOf(ev)))
  }

  // ----- one event

  /** What the buffers of an event hold: messages made, text to come, calls to come. */
  function Buffered(user: bool, b: Buffers): Talk {
    Join(TalkOf(b.messages), Join(Said(user, b.text), SILENCE.(calls := b.calls)))
  }

  predicate NoCallsMade(ev: Event, b: Buffers) {
    Unflushed(ev, b) && TalkOf(b.messages).calls == []
  }

  lemma TextTalk(ev: Event, id: string, text: string)
    ensures OfMessageTalk(TextMessage(id, RoleOf(ev), text)) == Said(FromUser(ev), text)
  {
  }

  lemma FlushTextTalk(ev: Event, b: Buffers)
    requires NoCallsMade(ev, b)
    ensures NoCallsMade(ev, FlushText(ev, b)) && Buffered(FromUser(ev), FlushText(ev, b)) == Buffered(FromUser(ev), b)
    ensures FlushText(ev, b).text == "" && FlushText(ev, b).calls == b.calls
  {
    hide MessageId, TalkOf, OfMessageTalk, TextMessage, RoleOf, FromUser, Unflushed, OfBuffers, OfMessages;
    FlushTextKeeps(ev, b);
    if b.text != "" {
      var id := MessageId(ev.id, |b.messages|);
      TextTalk(ev, id, b.text);
      TalkSnoc(b.messages, TextMessage(id, RoleOf(ev), b.text));
    }
  }

  lemma PlainTalk(marshal: Marshal, ev: Event, p: Part, b: Buffers)
    requires p.Part? && NoCallsMade(ev, b)
    ensures ConvertPlainPart(marshal, ev, p, b).Some? <==> Showable(marshal, p)
    ensures Showable(marshal, p) ==>
              var next := ConvertPlainPart(marshal, ev, p, b).value;
              NoCallsMade(ev, next) &&
              Buffered(FromUser(ev), next) == Join(Buffered(FromUser(ev), b), OfPartTalk(marshal, FromUser(ev), p))
  {
    hide MessageId, FlushText, RoleOf, TalkOf, FromUser, OfMessageTalk, ToolMessage;
    if IsCall(p) {
      FlushTextTalk(ev, b);
    } else if IsResponse(p) && Showable(marshal, p) {
      ResponseTalk(ev, p, Encoded(marshal, p.response.value.response), b);
    }
  }

  lemma ResponseTalk(ev: Event, p: Part, text: string, b: Buffers)
    requires IsResponse(p) && NoCallsMade(ev, b)
    ensures var m := ToolMessage(MessageId(ev.id, |b.messages|), p.response.value.id, text);
            var next := b.(messages := b.messages + [m]);
            && NoCallsMade(ev, next)
            && Buffered(FromUser(ev), next)
               == Join(Buffered(FromUser(ev), b), SILENCE.(results := [(p.response.value.id, text)]))
  {
    hide MessageId, TalkOf;
    TalkSnoc(b.messages, ToolMessage(MessageId(ev.id, |b.messages|), p.response.value.id, text));
  }

  lemma {:induction false} FoldedIsSilent(ev: Event, index: nat, events: seq<AgEvent>)
    requires forall i :: 0 <= i < |events| ==> Neutral(events[i])
    ensures TalkOf(Folded(ev.id, index, events)) == SILENCE
  {
    hide MessageId;
    if events != [] {
      FoldedIsSilent(ev, index, events[..|events| - 1]);
      var front := Folded(ev.id, index, events[..|events| - 1]);
      var last := events[|events| - 1];
      if last.ActivitySnapshot? {
        TalkSnoc(front, Message(MessageId(ev.id, index + |front|), Activity, last.content, [], "", last.activityType));
      }
    }
  }

  lemma AnyPartTalk(cfg: ConvertConfig, ev: Event, p: Part, b: Buffers)
    requires OnlyNeutral(cfg.converter) && NoCallsMade(ev, b)
    ensures ConvertPart(cfg, ev, p, b).Some? <==> PartConverts(cfg, ev, p)
    ensures PartConverts(cfg, ev, p) ==>
              var next := ConvertPart(cfg, ev, p, b).value;
              NoCallsMade(ev, next) && Buffered(FromUser(ev), next) ==
                if Taken(cfg.converter, ev, p) then Buffered(FromUser(ev), b)
                else Join(Buffered(FromUser(ev), b), OfPartTalk(cfg.marshal, FromUser(ev), p))
  {
    hide Folded, ConvertPlainPart, Buffered, OfPartTalk, Showable, TalkOf, Unflushed;
    if Taken(cfg.converter, ev, p) {
      if cfg.converter.value(ev, p).Handled? {
        TakenTalk(cfg, ev, p, b);
      }
    } else if p.Part? {
      PlainTalk(cfg.marshal, ev, p, b);
    } else {
      NilTalk(cfg.marshal, FromUser(ev), p);
      JoinSilence(Buffered(FromUser(ev), b));
    }
  }

  lemma NilTalk(marshal: Marshal, user: bool, p: Part)
    requires p.NilPart?
    ensures Showable(marshal, p) && OfPartTalk(marshal, user, p) == SILENCE
  {
  }

  lemma TakenTalk(cfg: ConvertConfig, ev: Event, p: Part, b: Buffers)
    requires OnlyNeutral(cfg.converter) && NoCallsMade(ev, b)
    requires Taken(cfg.converter, ev, p) && cfg.converter.value(ev, p).Handled?
    ensures var next := ConvertPart(cfg, ev, p, b).value;
            NoCallsMade(ev, next) && Buffered(FromUser(ev), next) == Buffered(FromUser(ev), b)
  {
    hide Folded, TalkOf, Unflushed, OfMessages, ReadPart;
    var events := cfg.converter.value(ev, p).events;
    TakenConserves(cfg, ev, p, b);
    FoldedIsSilent(ev, |b.messages|, events);
    TalkAppend(b.messages, Folded(ev.id, |b.messages|, events));
    JoinSilence(TalkOf(b.messages));
  }

  lemma {:induction false} PartsTalk(cfg: ConvertConfig, ev: Event, parts: seq<Part>)
    requires OnlyNeutral(cfg.converter)
    ensures ConvertParts(cfg, ev, parts).Some? <==> forall i :: 0 <= i < |parts| ==> PartConverts(cfg, ev, parts[i])
    ensures ConvertParts(cfg, ev, parts).Some? ==>
              && AllShowable(cfg.marshal, Untaken(cfg.converter, ev, parts))
              && NoCallsMade(ev, ConvertParts(cfg, ev, parts).value)
              && Buffered(FromUser(ev), ConvertParts(cfg, ev, parts).value)
                 == OfPartsTalk(cfg.marshal, FromUser(ev), Untaken(cfg.converter, ev, parts))
  {
    hide ConvertPart, Buffered, OfPartTalk, PartConverts, NoCallsMade, AllShowable, OnlyNeutral;
    if parts == [] {
      NothingTalked(cfg, ev);
    } else {
      var front, last := parts[..|parts| - 1], parts[|parts| - 1];
      PartsTalk(cfg, ev, front);
      if forall i :: 0 <= i < |parts| ==> PartConverts(cfg, ev, parts[i]) {
        UntakenShowable(cfg, ev, parts);
      }
      if ConvertParts(cfg, ev, front).Some? {
        AnyPartTalk(cfg, ev, last, ConvertParts(cfg, ev, front).value);
      }
    }
  }

  lemma NothingTalked(cfg: ConvertConfig, ev: Event)
    ensures NoCallsMade(ev, NO_BUFFERS) && Buffered(FromUser(ev), NO_BUFFERS) == SILENCE
    ensures AllShowable(cfg.marshal, [])
  {
  }

  lemma FlushTalk(ev: Event, b: Buffers)
    requires NoCallsMade(ev, b)
    ensures TalkOf(Flush(ev, b)) == Buffered(FromUser(ev), b)
  {
    hide MessageId, TalkOf, TextMessage, CallMessage, FlushText, FromUser, Unflushed, Join, Said;
    var id := MessageId(ev.id, |b.messages|);
    var withCalls := if b.calls == [] then b.messages else b.messages + [CallMessage(id, RoleOf(ev), b.calls)];
    WithCalls(ev, id, b.messages, b.calls);
    WithText(ev, b.(messages := withCalls));
    var withText := FlushText(ev, b.(messages := withCalls)).messages;
    WithThought(MessageId(ev.id, |withText|), withText, b.thought);
    CallsCommute(TalkOf(b.messages), FromUser(ev), b.text, b.calls);
  }

  lemma WithCalls(ev: Event, id: string, messages: seq<Message>, calls: seq<ToolCall>)
    ensures TalkOf(if calls == [] then messages else messages + [CallMessage(id, RoleOf(ev), calls)])
         == Join(TalkOf(messages), SILENCE.(calls := calls))
  {
    hide TalkOf, OfMessageTalk, CallMessage;
    CallTalk(ev, id, calls);
    TalkSnoc(messages, CallMessage(id, RoleOf(ev), calls));
  }

  lemma WithThought(id: string, messages: seq<Message>, thought: string)
    ensures TalkOf(messages + [TextMessage(id, Reasoning, thought)]) == TalkOf(messages)
  {
    hide TalkOf, OfMessageTalk, TextMessage;
    ThoughtIsNotTalk(id, thought);
    TalkSnoc(messages, TextMessage(id, Reasoning, thought));
    JoinSilence(TalkOf(messages));
  }

  lemma CallsCommute(talk: Talk, user: bool, text: string, calls: seq<ToolCall>)
    ensures Join(Join(talk, SILENCE.(calls := calls)), Said(user, text))
         == Join(talk, Join(Said(user, text), SILENCE.(calls := calls)))
  {
  }

  lemma WithText(ev: Event, b: Buffers)
    ensures TalkOf(FlushText(ev, b).messages) == Join(TalkOf(b.messages), Said(FromUser(ev), b.text))
  {
    hide MessageId, TalkOf, OfMessageTalk, TextMessage;
    TextTalk(ev, MessageId(ev.id, |b.messages|), b.text);
    TalkSnoc(b.messages, TextMessage(MessageId(ev.id, |b.messages|), RoleOf(ev), b.text));
  }

  lemma CallTalk(ev: Event, id: string, calls: seq<ToolCall>)
    ensures OfMessageTalk(CallMessage(id, RoleOf(ev), calls)) == SILENCE.(calls := calls)
  {
  }

  lemma ThoughtIsNotTalk(id: string, text: string)
    ensures OfMessageTalk(TextMessage(id, Reasoning, text)) == SILENCE
  {
  }

  /** An event converts exactly when no part fails; its messages then say what its parts
      say, with the arguments and the results as they encode, under its own role. */
  lemma EventTells(cfg: ConvertConfig, ev: Event)
    requires OnlyNeutral(cfg.converter)
    ensures ConvertEvent(cfg, ev).Some? <==> EventConverts(cfg, ev)
    ensures EventConverts(cfg, ev) ==> TalkOf(ConvertEvent(cfg, ev).value) == EventTalk(cfg, ev)
  {
    hide ConvertParts, Flush, TalkOf, Buffered, PartConverts, NoCallsMade, OfPartsTalk, OnlyNeutral;
    PartsTalk(cfg, ev, PartsOf(ev));
    if EventConverts(cfg, ev) {
      FlushTalk(ev, ConvertParts(cfg, ev, PartsOf(ev)).value);
    }
  }

  // ----- which events

  /** Events before n that count against the limit: with content, and not before the cursor. */
  predicate Counts(cfg: ConvertConfig, item: Option<Event>) {
    && item.Some? && item.value.content.Some?
    && (cfg.after.Some? ==> item.value.timestamp >= cfg.after.value)
  }

  function CountBefore(cfg: ConvertConfig, history: seq<Option<Event>>, n: nat): nat
    requires n <= |history|
  {
    if n == 0 then 0 else CountBefore(cfg, history, n - 1) + (if Counts(cfg, history[n - 1]) then 1 else 0)
  }

  /** Event n is converted: it counts, fewer than `limit` events before it do, partial ones
      included, and it is not partial itself. */
  predicate Chosen(cfg: ConvertConfig, history: seq<Option<Event>>, n: nat)
    requires n < |history|
  {
    && Counts(cfg, history[n]) && !history[n].value.partial
    && (cfg.limit > 0 ==> CountBefore(cfg, history, n) < cfg.limit)
  }

  function ChosenBefore(cfg: ConvertConfig, history: seq<Option<Event>>, n: nat): seq<Event>
    requires n <= |history|
  {
    if n == 0 then []
    else ChosenBefore(cfg, history, n - 1) + if Chosen(cfg, history, n - 1) then [history[n - 1].value] else []
  }

  lemma {:induction false} ChosenAre(cfg: ConvertConfig, history: seq<Option<Event>>, n: nat)
    requires n <= |history|
    ensures |EligibleOnly(cfg.after, history[..n])| == CountBefore(cfg, history, n)
    ensures Finals(Limited(cfg.limit, EligibleOnly(cfg.after, history[..n]))) == ChosenBefore(cfg, history, n)
  {
    if n > 0 {
      hide EligibleOnly, Gather;
      ChosenAre(cfg, history, n - 1);
      EligibleStep(cfg.after, history, n - 1);
      var before := EligibleOnly(cfg.after, history[..n - 1]);
      if Counts(cfg, history[n - 1]) {
        var ev := history[n - 1].value;
        GatherSnoc(FinalEvent, before, ev);
        if 0 < cfg.limit <= |before| {
          assert (before + [ev])[..cfg.limit] == before[..cfg.limit];
        }
      }
    } else {
      assert history[..0] == [];
    }
  }

  // ----- the whole history

  predicate AllConvert(cfg: ConvertConfig, events: seq<Event>) {
    forall i :: 0 <= i < |events| ==> EventConverts(cfg, events[i])
  }

  function TalkOfEvents(cfg: ConvertConfig, events: seq<Event>): Talk
    requires AllConvert(cfg, events)
  {
    if events == [] then SILENCE
    else Join(TalkOfEvents(cfg, events[..|events| - 1]), EventTalk(cfg, events[|events| - 1]))
  }

  lemma AllConvertSnoc(cfg: ConvertConfig, events: seq<Event>)
    requires events != []
    ensures AllConvert(cfg, events) <==>
              AllConvert(cfg, events[..|events| - 1]) && EventConverts(cfg, events[|events| - 1])
  {
    hide EventConverts;
    assert forall i :: 0 <= i < |events| - 1 ==> events[..|events| - 1][i] == events[i];
  }

  lemma {:induction false} AllTell(cfg: ConvertConfig, events: seq<Event>)
    requires OnlyNeutral(cfg.converter)
    ensures ConvertAll(cfg, events).Some? <==> AllConvert(cfg, events)
    ensures ConvertAll(cfg, events).Some? ==> TalkOf(ConvertAll(cfg, events).value) == TalkOfEvents(cfg, events)
  {
    hide ConvertEvent, EventTalk, EventConverts, AllConvert, OnlyNeutral, OfMessageTalk;
    if events == [] {
      NoneConvert(cfg);
    } else {
      var front, last := events[..|events| - 1], events[|events| - 1];
      AllTell(cfg, front);
      EventTells(cfg, last);
      AllConvertSnoc(cfg, events);
      if ConvertAll(cfg, events).Some? {
        TalkAppend(ConvertAll(cfg, front).value, ConvertEvent(cfg, last).value);
      }
    }
  }

  lemma NoneConvert(cfg: ConvertConfig)
    ensures AllConvert(cfg, [])
  {
  }

  /** History tells what was stored. The conversion fails exactly when one of the chosen
      events has a part that does not encode or that the converter fails on; otherwise its
      messages hold, in order, what user and assistant said in the chosen events, their calls
      with arguments and their results with texts, nil as an empty object. */
  lemma HistoryTells(cfg: ConvertConfig, history: seq<Option<Event>>)
    requires OnlyNeutral(cfg.converter)
    ensures var chosen := ChosenBefore(cfg, history, |history|);
            && (ConvertSession(cfg, history).Some? <==> AllConvert(cfg, chosen))
            && (ConvertSession(cfg, history).Some? ==>
                  TalkOf(ConvertSession(cfg, history).value) == TalkOfEvents(cfg, chosen))
  {
    hide ConvertAll, AllConvert, OnlyNeutral;
    assert history[..|history|] == history;
    ChosenAre(cfg, history, |history|);
    AllTell(cfg, ChosenBefore(cfg, history, |history|));
  }

  // ----- converters that return more than activities

  /** Whatever events a converter returns, its activities and its text deltas become messages,
      the deltas as the assistant's, one each and in order; nothing else of them is kept. */
  lemma {:induction false} FoldedKeeps(eventId: string, index: nat, events: seq<AgEvent>)
    ensures var ms := Folded(eventId, index, events);
            && OfMessages(ms) == Reading(Gather(TextDelta, events), "", [], [], Gather(CardOf, events))
            && (forall i :: 0 <= i < |ms| ==> ms[i].role.Activity? || (ms[i].role.Assistant? && IsTextMessage(ms[i])))
            && |ms| == |Gather(Kept, events)|
  {
    hide MessageId, OfMessages, OfMessage;
    if events == [] {
      NothingRead();
    } else {
      var front, last := events[..|events| - 1], events[|events| - 1];
      FoldedKeeps(eventId, index, front);
      var folded := Folded(eventId, index, front);
      var id := MessageId(eventId, index + |folded|);
      if last.ActivitySnapshot? {
        var m := Message(id, Activity, last.content, [], "", last.activityType);
        MessagesSnoc(folded, m);
        ActivityRead(m);
      } else if last.TextContent? {
        MessagesSnoc(folded, TextMessage(id, Assistant, last.delta));
        ReadTextMessage(id, Assistant, last.delta);
      }
    }
  }

  function Kept(ev: AgEvent): seq<AgEvent> {
    if ev.ActivitySnapshot? || ev.TextContent? then [ev] else []
  }
}
