/** What history conversion keeps (agui/convert.go): the content of each event, the order
    of events, and the way limits and time filters cut. */
module ConvertLaws {
  import opened Values
  import opened Sequences
  import opened Adk
  import opened Protocol
  import opened Launcher
  import opened Convert
  import opened Projections

  // ----- one event

  /** Text buffered so far belongs after the messages already made; calls and thoughts wait. */
  function OfBuffers(b: Buffers): Reading {
    var made := OfMessages(b.messages);
    Reading(made.text + b.text, made.thought + b.thought, made.calls + Gather(CallOf, b.calls), made.results,
            made.cards)
  }

  /** Messages made while parts are read are text, tool and activity messages only. */
  predicate Made(role: Role, m: Message) {
    (IsTextMessage(m) && m.role == role) || ((m.role.Tool? || m.role.Activity?) && m.toolCalls == [])
  }

  predicate Unflushed(ev: Event, b: Buffers) {
    forall i :: 0 <= i < |b.messages| ==> Made(RoleOf(ev), b.messages[i])
  }

  lemma FlushTextKeeps(ev: Event, b: Buffers)
    requires Unflushed(ev, b)
    ensures Unflushed(ev, FlushText(ev, b)) && OfBuffers(FlushText(ev, b)) == OfBuffers(b)
    ensures FlushText(ev, b).text == "" && FlushText(ev, b).calls == b.calls && FlushText(ev, b).thought == b.thought
    ensures OfMessages(FlushText(ev, b).messages).text == OfMessages(b.messages).text + b.text
  {
    if b.text != "" {
      var m := TextMessage(MessageId(ev.id, |b.messages|), RoleOf(ev), b.text);
      MessagesSnoc(b.messages, m);
      assert OfMessage(m) == Reading(b.text, "", [], [], []);
    }
  }

  lemma PartConserves(marshal: Marshal, ev: Event, part: Part, b: Buffers)
    requires part.Part? && Unflushed(ev, b) && ConvertPlainPart(marshal, ev, part, b).Some?
    ensures var next := ConvertPlainPart(marshal, ev, part, b).value;
            Unflushed(ev, next) && OfBuffers(next) == Plus(OfBuffers(b), OfPart(part))
  {
    hide FlushText, Gather, OfMessages, MessageId;
    if part.text == "" && part.call.Some? {
      FlushTextKeeps(ev, b);
      var flushed := FlushText(ev, b);
      var args := MarshalMap(marshal, part.call.value.args);
      var call := ToolCall(part.call.value.id, part.call.value.name, args.value);
      GatherSnoc(CallOf, flushed.calls, call);
    } else if part.text == "" && part.response.Some? {
      var json := MarshalMap(marshal, part.response.value.response);
      var m := ToolMessage(MessageId(ev.id, |b.messages|), part.response.value.id, json.value);
      MessagesSnoc(b.messages, m);
      NoCalls(m.toolCalls);
      assert OfMessage(m) == Reading("", "", [], [part.response.value.id], []);
    }
  }

  /** What a converter's neutral events fold into: activity messages, nothing else. */
  lemma {:induction false} FoldedConserves(ev: Event, index: nat, events: seq<AgEvent>)
    requires forall i :: 0 <= i < |events| ==> Neutral(events[i])
    ensures OfMessages(Folded(ev.id, index, events)) == NOTHING.(cards := Gather(CardOf, events))
    ensures forall i :: 0 <= i < |Folded(ev.id, index, events)| ==> Made(RoleOf(ev), Folded(ev.id, index, events)[i])
  {
    hide MessageId, OfMessages, OfMessage;
    if events == [] {
      NothingRead();
    } else {
      var front, last := events[..|events| - 1], events[|events| - 1];
      FoldedConserves(ev, index, front);
      if last.ActivitySnapshot? {
        var folded := Folded(ev.id, index, front);
        var m := Message(MessageId(ev.id, index + |folded|), Activity, last.content, [], "", last.activityType);
        MessagesSnoc(folded, m);
        ActivityRead(m);
      }
    }
  }

  lemma ActivityRead(m: Message)
    requires m.role.Activity? && m.toolCalls == []
    ensures OfMessage(m) == NOTHING.(cards := [(m.activityType, m.content)])
  {
    NoCalls(m.toolCalls);
  }

  lemma TakenConserves(cfg: ConvertConfig, ev: Event, part: Part, b: Buffers)
    requires OnlyNeutral(cfg.converter) && Unflushed(ev, b) && Taken(cfg.converter, ev, part)
    requires ConvertPart(cfg, ev, part, b).Some?
    ensures var next := ConvertPart(cfg, ev, part, b).value;
            && Unflushed(ev, next) && OfBuffers(next) == Plus(OfBuffers(b), ReadPart(cfg.converter, ev, part))
            && OfMessages(next.messages).text == OfMessages(b.messages).text
  {
    hide Gather, OfMessages, Folded;
    var events := cfg.converter.value(ev, part).events;
    var folded := Folded(ev.id, |b.messages|, events);
    FoldedConserves(ev, |b.messages|, events);
    MessagesAppend(b.messages, folded);
  }

  lemma {:induction false} PartsConserve(cfg: ConvertConfig, ev: Event, parts: seq<Part>)
    requires OnlyNeutral(cfg.converter) && ConvertParts(cfg, ev, parts).Some?
    ensures var b := ConvertParts(cfg, ev, parts).value;
            Unflushed(ev, b) && OfBuffers(b) == ReadParts(cfg.converter, ev, parts)
  {
    hide ConvertPlainPart, OfBuffers, ReadParts, ReadPart, Unflushed, OnlyNeutral;
    if parts == [] {
      NothingBuffered(cfg, ev);
    } else {
      var front, last := parts[..|parts| - 1], parts[|parts| - 1];
      var b := ConvertParts(cfg, ev, front).value;
      PartsConserve(cfg, ev, front);
      ReadSnoc(cfg.converter, ev, front, last);
      assert parts == front + [last];
      if Taken(cfg.converter, ev, last) {
        TakenConserves(cfg, ev, last, b);
      } else {
        UntakenRead(cfg.converter, ev, last, OfBuffers(b));
        if last.Part? {
          PartConserves(cfg.marshal, ev, last, b);
        }
      }
    }
  }

  lemma UntakenRead(converter: Option<Converter>, ev: Event, p: Part, before: Reading)
    requires !Taken(converter, ev, p)
    ensures ReadPart(converter, ev, p) == OfPart(p)
    ensures p.NilPart? ==> Plus(before, OfPart(p)) == before
  {
    PlusNothing(before);
  }

  lemma NothingBuffered(cfg: ConvertConfig, ev: Event)
    ensures Unflushed(ev, NO_BUFFERS) && OfBuffers(NO_BUFFERS) == ReadParts(cfg.converter, ev, [])
  {
  }

  /** Calls, then the rest of the text, then the thoughts, each in at most one message. */
  predicate Tail(role: Role, tail: seq<Message>, b: Buffers) {
    var calls := if b.calls == [] then 0 else 1;
    var texts := if b.text == "" then 0 else 1;
    var thoughts := if b.thought == "" then 0 else 1;
    && |tail| == calls + texts + thoughts
    && (b.calls != [] ==> tail[0].toolCalls == b.calls && tail[0].content.Nil? && tail[0].role == role)
    && (b.text != "" ==> IsTextMessage(tail[calls]) && tail[calls].content == Str(b.text) && tail[calls].role == role)
    && (b.thought != "" ==>
          tail[calls + texts].role.Reasoning? && tail[calls + texts].content == Str(b.thought)
          && tail[calls + texts].toolCalls == [])
  }

  lemma ReadCallMessage(id: string, role: Role, calls: seq<ToolCall>)
    requires role.User? || role.Assistant?
    ensures OfMessage(CallMessage(id, role, calls)) == Reading("", "", Gather(CallOf, calls), [], [])
  {
    hide Gather;
  }

  lemma ReadTextMessage(id: string, role: Role, text: string)
    requires role.User? || role.Assistant? || role.Reasoning?
    ensures OfMessage(TextMessage(id, role, text)) ==
            if role.Reasoning? then Reading("", text, [], [], []) else Reading(text, "", [], [], [])
  {
    NoCalls([]);
  }

  lemma JoinCalls(messages: seq<Message>, id: string, role: Role, calls: seq<ToolCall>)
    requires role.User? || role.Assistant?
    ensures OfMessages(if calls == [] then messages else messages + [CallMessage(id, role, calls)])
         == Plus(OfMessages(messages), Reading("", "", Gather(CallOf, calls), [], []))
  {
    hide OfMessages, OfMessage;
    if calls == [] {
      NoCalls(calls);
      PlusNothing(OfMessages(messages));
    } else {
      ReadCallMessage(id, role, calls);
      MessagesSnoc(messages, CallMessage(id, role, calls));
    }
  }

  lemma JoinText(messages: seq<Message>, id: string, role: Role, text: string)
    requires role.User? || role.Assistant? || role.Reasoning?
    ensures OfMessages(if text == "" then messages else messages + [TextMessage(id, role, text)])
         == Plus(OfMessages(messages),
                 if role.Reasoning? then Reading("", text, [], [], []) else Reading(text, "", [], [], []))
  {
    hide OfMessages, OfMessage;
    if text == "" {
      PlusNothing(OfMessages(messages));
    } else {
      ReadTextMessage(id, role, text);
      MessagesSnoc(messages, TextMessage(id, role, text));
    }
  }

  lemma FlushConserves(ev: Event, b: Buffers)
    requires Unflushed(ev, b)
    ensures OfMessages(Flush(ev, b)) == OfBuffers(b)
  {
    hide Gather, MessageId, OfMessages, CallMessage, TextMessage;
    var role := RoleOf(ev);
    var withCalls := if b.calls == [] then b.messages
                     else b.messages + [CallMessage(MessageId(ev.id, |b.messages|), role, b.calls)];
    var withText := FlushText(ev, b.(messages := withCalls)).messages;
    JoinCalls(b.messages, MessageId(ev.id, |b.messages|), role, b.calls);
    JoinText(withCalls, MessageId(ev.id, |withCalls|), role, b.text);
    JoinText(withText, MessageId(ev.id, |withText|), Reasoning, b.thought);
  }

  lemma FlushShape(ev: Event, b: Buffers)
    ensures b.messages <= Flush(ev, b) && Tail(RoleOf(ev), Flush(ev, b)[|b.messages|..], b)
  {
    hide MessageId;
  }

  lemma NoCalls(calls: seq<ToolCall>)
    requires calls == []
    ensures Gather(CallOf, calls) == []
  {
  }

  /** Parts before the last call. */
  function BeforeLastCall(parts: seq<Part>): seq<Part> {
    if parts == [] then []
    else if IsCall(parts[|parts| - 1]) then parts[..|parts| - 1]
    else BeforeLastCall(parts[..|parts| - 1])
  }

  lemma {:induction false} TextBeforeCalls(cfg: ConvertConfig, ev: Event, parts: seq<Part>)
    requires OnlyNeutral(cfg.converter) && ConvertParts(cfg, ev, parts).Some?
    ensures var b := ConvertParts(cfg, ev, parts).value;
            OfMessages(b.messages).text == OfParts(BeforeLastCall(Untaken(cfg.converter, ev, parts))).text
  {
    if parts != [] {
      hide ConvertPlainPart, FlushText, OfMessages, OfParts, OnlyNeutral;
      var front, last := parts[..|parts| - 1], parts[|parts| - 1];
      TextBeforeCalls(cfg, ev, front);
      PartsConserve(cfg, ev, front);
      UntakenSnoc(cfg.converter, ev, front, last);
      assert parts == front + [last];
      var b := ConvertParts(cfg, ev, front).value;
      if Taken(cfg.converter, ev, last) {
        TakenConserves(cfg, ev, last, b);
      } else if last.Part? {
        StepText(cfg.marshal, ev, last, b);
      }
    } else {
      NothingRead();
    }
  }

  lemma StepText(marshal: Marshal, ev: Event, part: Part, b: Buffers)
    requires part.Part? && Unflushed(ev, b) && ConvertPlainPart(marshal, ev, part, b).Some?
    ensures var next := ConvertPlainPart(marshal, ev, part, b).value;
            OfMessages(next.messages).text == if IsCall(part) then OfBuffers(b).text else OfMessages(b.messages).text
  {
    hide FlushText;
    if part.text == "" && part.call.Some? {
      FlushTextKeeps(ev, b);
    } else if part.text == "" && part.response.Some? {
      var json := MarshalMap(marshal, part.response.value.response);
      MessagesSnoc(b.messages, ToolMessage(MessageId(ev.id, |b.messages|), part.response.value.id, json.value));
    }
  }

  /** The role that speaks in an event: the user only when its content says so. */
  predicate SpokenBy(ev: Event, m: Message) {
    m.role.User? || m.role.Assistant? ==> (m.role.User? <==> ev.content.Some? && ev.content.value.role == "user")
  }

  /** A result message for a response, with the encoded response as its text. */
  function ResultText(m: Message): seq<(string, string)> {
    if m.role.Tool? && m.content.Str? then [(m.toolCallId, m.content.s)] else []
  }

  /** Conservation, with any converter that opens and closes nothing. The messages of an
      event carry exactly the texts, thoughts, calls and responses of the parts left to the
      launcher and the activities made of the others, each in part order. They are: text,
      tool and activity messages holding the text up to the last call, then at most one
      message with all the calls, then at most one with the remaining text, then at most one
      with all the thoughts; text and calls are the user's exactly when the event's content
      has the role "user", and the assistant's otherwise. */
  lemma EventConserves(cfg: ConvertConfig, ev: Event)
    requires OnlyNeutral(cfg.converter) && ConvertEvent(cfg, ev).Some?
    ensures var ms, b := ConvertEvent(cfg, ev).value, ConvertParts(cfg, ev, PartsOf(ev)).value;
            var parts := Untaken(cfg.converter, ev, PartsOf(ev));
            && OfMessages(ms) == ReadEvent(cfg.converter, ev)
            && Unflushed(ev, b) && b.messages <= ms && Tail(RoleOf(ev), ms[|b.messages|..], b)
            && (forall i :: 0 <= i < |ms| ==> SpokenBy(ev, ms[i]))
            && OfMessages(b.messages).text == OfParts(BeforeLastCall(parts)).text
            && Gather(CallOf, b.calls) == OfParts(parts).calls
            && b.thought == OfParts(parts).thought
  {
    hide ConvertParts, Gather, OnlyNeutral, SpokenBy, Flush;
    var b := ConvertParts(cfg, ev, PartsOf(ev)).value;
    PartsConserve(cfg, ev, PartsOf(ev));
    FlushConserves(ev, b);
    FlushShape(ev, b);
    TextBeforeCalls(cfg, ev, PartsOf(ev));
    MadeHoldNoCalls(RoleOf(ev), b.messages);
    FlushedRoles(ev, b);
  }

  lemma FlushedRoles(ev: Event, b: Buffers)
    requires Unflushed(ev, b)
    ensures forall i :: 0 <= i < |Flush(ev, b)| ==> SpokenBy(ev, Flush(ev, b)[i])
  {
    hide MessageId;
  }

  lemma {:induction false} MadeHoldNoCalls(role: Role, messages: seq<Message>)
    requires forall i :: 0 <= i < |messages| ==> Made(role, messages[i])
    ensures OfMessages(messages).calls == [] && OfMessages(messages).thought == ""
  {
    if messages != [] {
      MadeHoldNoCalls(role, messages[..|messages| - 1]);
      NoCalls(messages[|messages| - 1].toolCalls);
    }
  }

  // ----- a whole session

  lemma {:induction false} ConvertAllAppends(cfg: ConvertConfig, a: seq<Event>, b: seq<Event>)
    ensures ConvertAll(cfg, a + b).Some? <==> ConvertAll(cfg, a).Some? && ConvertAll(cfg, b).Some?
    ensures ConvertAll(cfg, a + b).Some? ==>
              ConvertAll(cfg, a + b).value == ConvertAll(cfg, a).value + ConvertAll(cfg, b).value
    decreases |b|
  {
    hide ConvertEvent;
    if b == [] {
      assert a + b == a;
    } else {
      var front := b[..|b| - 1];
      ConvertAllAppends(cfg, a, front);
      assert (a + b)[..|a + b| - 1] == a + front;
    }
  }

  lemma {:induction false} EligibleAppends(after: Option<int>, a: seq<Option<Event>>, b: seq<Option<Event>>)
    ensures EligibleOnly(after, a + b) == EligibleOnly(after, a) + EligibleOnly(after, b)
    decreases |b|
  {
    if b == [] {
      assert a + b == a;
    } else {
      EligibleAppends(after, a, b[..|b| - 1]);
      assert (a + b)[..|a + b| - 1] == a + b[..|b| - 1];
    }
  }

  /** Without a limit, converting two histories in a row is converting each and joining. */
  lemma ConversionIsHomomorphism(cfg: ConvertConfig, a: seq<Option<Event>>, b: seq<Option<Event>>)
    requires cfg.limit <= 0
    ensures ConvertSession(cfg, a + b).Some? <==> ConvertSession(cfg, a).Some? && ConvertSession(cfg, b).Some?
    ensures ConvertSession(cfg, a + b).Some? ==>
              ConvertSession(cfg, a + b).value == ConvertSession(cfg, a).value + ConvertSession(cfg, b).value
  {
    EligibleAppends(cfg.after, a, b);
    GatherAppend(FinalEvent, EligibleOnly(cfg.after, a), EligibleOnly(cfg.after, b));
    ConvertAllAppends(cfg, Converted(cfg, a), Converted(cfg, b));
  }

  function NotPartial(item: Option<Event>): seq<Option<Event>> {
    if item.Some? && item.value.partial then [] else [item]
  }

  lemma {:induction false} FinalsOfFiltered(after: Option<int>, history: seq<Option<Event>>)
    ensures Finals(EligibleOnly(after, Gather(NotPartial, history))) == Finals(EligibleOnly(after, history))
  {
    if history != [] {
      var front, last := history[..|history| - 1], history[|history| - 1];
      FinalsOfFiltered(after, front);
      var kept := Gather(NotPartial, front);
      EligibleAppends(after, kept, NotPartial(last));
      EligibleAppends(after, front, [last]);
      assert history == front + [last];
      GatherAppend(FinalEvent, EligibleOnly(after, kept), EligibleOnly(after, NotPartial(last)));
      GatherAppend(FinalEvent, EligibleOnly(after, front), EligibleOnly(after, [last]));
      assert [last][..0] == [];
      if last.Some? && last.value.partial {
        GatherNothing(FinalEvent, EligibleOnly(after, [last]));
      }
    }
  }

  /** Without a limit, partial events make no difference. */
  lemma PartialEventsAreIgnored(cfg: ConvertConfig, history: seq<Option<Event>>)
    requires cfg.limit <= 0
    ensures ConvertSession(cfg, Gather(NotPartial, history)) == ConvertSession(cfg, history)
  {
    FinalsOfFiltered(cfg.after, history);
  }

  /** A larger limit (0 for none) only appends messages; in particular a limited result is
      a prefix of the unlimited one. */
  lemma LimitCutsAPrefix(cfg: ConvertConfig, smaller: int, larger: int, history: seq<Option<Event>>)
    requires 0 < smaller && (larger <= 0 || smaller <= larger)
    requires ConvertSession(cfg.(limit := larger), history).Some?
    ensures ConvertSession(cfg.(limit := smaller), history).Some?
    ensures ConvertSession(cfg.(limit := smaller), history).value <= ConvertSession(cfg.(limit := larger), history).value
  {
    hide EligibleOnly, ConvertAll, Gather;
    var all := EligibleOnly(cfg.after, history);
    var few, many := Limited(smaller, all), Limited(larger, all);
    GatherAppend(FinalEvent, few, many[|few|..]);
    assert many == few + many[|few|..];
    ConvertAllAppends(cfg, Finals(few), Finals(many[|few|..]));
    SameConversion(cfg, cfg.(limit := smaller), Finals(few));
    SameConversion(cfg, cfg.(limit := larger), Finals(many));
  }

  /** Limit and time filter play no part in converting a chosen list of events. */
  lemma {:induction false} SameConversion(cfg: ConvertConfig, other: ConvertConfig, events: seq<Event>)
    requires cfg.converter == other.converter && cfg.marshal == other.marshal
    ensures ConvertAll(other, events) == ConvertAll(cfg, events)
  {
    if events != [] {
      SameConversion(cfg, other, events[..|events| - 1]);
      SameParts(cfg, other, events[|events| - 1], PartsOf(events[|events| - 1]));
    }
  }

  lemma {:induction false} SameParts(cfg: ConvertConfig, other: ConvertConfig, ev: Event, parts: seq<Part>)
    requires cfg.converter == other.converter && cfg.marshal == other.marshal
    ensures ConvertParts(other, ev, parts) == ConvertParts(cfg, ev, parts)
  {
    if parts != [] {
      SameParts(cfg, other, ev, parts[..|parts| - 1]);
    }
  }

  predicate Ascending(history: seq<Option<Event>>) {
    forall i, j :: 0 <= i < j < |history| && history[i].Some? && history[j].Some? ==>
      history[i].value.timestamp <= history[j].value.timestamp
  }

  /** With ascending timestamps a time filter keeps a suffix of what would be converted. */
  lemma {:induction false} FilterKeepsSuffix(after: int, history: seq<Option<Event>>) returns (n: nat)
    requires Ascending(history)
    ensures n <= |EligibleOnly(None, history)| && EligibleOnly(Some(after), history) == EligibleOnly(None, history)[n..]
    ensures n < |EligibleOnly(None, history)| ==> EligibleOnly(None, history)[n].timestamp >= after
    ensures forall e :: e in EligibleOnly(None, history) ==> Some(e) in history
  {
    if history == [] {
      n := 0;
    } else {
      var front, last := history[..|history| - 1], history[|history| - 1];
      n := FilterKeepsSuffix(after, front);
      if n == |EligibleOnly(None, front)| && Eligible(None, last) && !Eligible(Some(after), last) {
        n := n + 1;
      } else if n < |EligibleOnly(None, front)| && Eligible(None, last) {
        var e := EligibleOnly(None, front)[n];
        assert Some(e) in front;
        var i :| 0 <= i < |front| && front[i] == Some(e);
        assert history[i] == Some(e);
      }
    }
  }

  lemma TimeFilterCutsASuffix(cfg: ConvertConfig, after: int, history: seq<Option<Event>>)
    requires Ascending(history) && cfg.limit <= 0
    requires ConvertSession(cfg.(after := None), history).Some?
    ensures ConvertSession(cfg.(after := Some(after)), history).Some?
    ensures var all := ConvertSession(cfg.(after := None), history).value;
            var late := ConvertSession(cfg.(after := Some(after)), history).value;
            |late| <= |all| && all[|all| - |late|..] == late
  {
    var n := FilterKeepsSuffix(after, history);
    var all := EligibleOnly(None, history);
    assert all == all[..n] + all[n..];
    GatherAppend(FinalEvent, all[..n], all[n..]);
    ConvertAllAppends(cfg, Finals(all[..n]), Finals(all[n..]));
    SameConversion(cfg, cfg.(after := None), Finals(all));
    SameConversion(cfg, cfg.(after := Some(after)), Finals(all[n..]));
  }

  /** The messages of a whole history carry exactly what its converted events carry. */
  lemma {:induction false} AllConserve(cfg: ConvertConfig, events: seq<Event>)
    requires OnlyNeutral(cfg.converter) && ConvertAll(cfg, events).Some?
    ensures OfMessages(ConvertAll(cfg, events).value) == ReadAll(cfg.converter, events)
  {
    hide ConvertEvent, OfMessages, ReadEvent, OnlyNeutral;
    if events == [] {
      NothingRead();
    } else {
      var front, last := events[..|events| - 1], events[|events| - 1];
      AllConserve(cfg, front);
      EventConserves(cfg, last);
      MessagesAppend(ConvertAll(cfg, front).value, ConvertEvent(cfg, last).value);
    }
  }

  lemma NothingRead()
    ensures OfMessages([]) == OfParts([]) == OfStream([]) == NOTHING
  {
  }
}
