/** Session history to AG-UI messages (agui/convert.go). */
module Convert {
  import opened Values
  import opened Sequences
  import opened Adk
  import opened Protocol
  import opened Launcher

  datatype ConvertConfig = ConvertConfig(converter: Option<Converter>, marshal: Marshal, after: Option<int>, limit: int)

  /** The local variables of the part loop. */
  datatype Buffers = Buffers(messages: seq<Message>, text: string, calls: seq<ToolCall>, thought: string)

  const NO_BUFFERS := Buffers([], "", [], "")

  function Digit(d: nat): char
    requires d < 10
  {
    "0123456789"[d]
  }

  /** Decimal notation without leading zeros. */
  function Decimal(n: nat): string {
    if n < 10 then [Digit(n)] else Decimal(n / 10) + [Digit(n % 10)]
  }

  function MessageId(eventId: string, index: nat): string {
    if index == 0 then eventId else eventId + "-" + Decimal(index)
  }

  function RoleOf(ev: Event): Role {
    if ev.content.Some? && ev.content.value.role == "user" then User else Assistant
  }

  function MarshalMap(marshal: Marshal, m: Option<Fields>): Option<string> {
    if m.None? then Some("{}") else marshal(m)
  }

  function TextMessage(id: string, role: Role, text: string): Message {
    Message(id, role, Str(text), [], "", "")
  }

  function CallMessage(id: string, role: Role, calls: seq<ToolCall>): Message {
    Message(id, role, Nil, calls, "", "")
  }

  function ToolMessage(id: string, callId: string, response: string): Message {
    Message(id, Tool, Str(response), [], callId, "")
  }

  /** Messages folded from a converter's events; `index` is the first free message number. */
  function Folded(eventId: string, index: nat, events: seq<AgEvent>): seq<Message> {
    if events == [] then []
    else
      var front := Folded(eventId, index, events[..|events| - 1]);
      match events[|events| - 1]
      case ActivitySnapshot(kind, content) =>
        front + [Message(MessageId(eventId, index + |front|), Activity, content, [], "", kind)]
      case TextContent(_, delta) =>
        front + [TextMessage(MessageId(eventId, index + |front|), Assistant, delta)]
      case _ => front
  }

  /** Buffered text becomes a message of its own. */
  function FlushText(ev: Event, b: Buffers): Buffers {
    if b.text == "" then b
    else b.(messages := b.messages + [TextMessage(MessageId(ev.id, |b.messages|), RoleOf(ev), b.text)], text := "")
  }

  function ConvertPlainPart(marshal: Marshal, ev: Event, part: Part, b: Buffers): Option<Buffers>
    requires part.Part?
  {
    if part.thought && part.text != "" then Some(b.(thought := b.thought + part.text))
    else if part.text != "" && !part.thought then Some(b.(text := b.text + part.text))
    else if part.call.Some? then
      var flushed := FlushText(ev, b);
      var args := MarshalMap(marshal, part.call.value.args);
      if args.None? then None
      else Some(flushed.(calls := flushed.calls + [ToolCall(part.call.value.id, part.call.value.name, args.value)]))
    else if part.response.Some? then
      var json := MarshalMap(marshal, part.response.value.response);
      if json.None? then None
      else Some(b.(messages := b.messages + [ToolMessage(MessageId(ev.id, |b.messages|), part.response.value.id, json.value)]))
    else Some(b)
  }

  function ConvertPart(cfg: ConvertConfig, ev: Event, part: Part, b: Buffers): Option<Buffers> {
    if part.NilPart? then Some(b)
    else if cfg.converter.None? then ConvertPlainPart(cfg.marshal, ev, part, b)
    else
      match cfg.converter.value(ev, part)
      case Broken => None
      case Handled(events) => Some(b.(messages := b.messages + Folded(ev.id, |b.messages|, events)))
      case NotHandled => ConvertPlainPart(cfg.marshal, ev, part, b)
  }

  function ConvertParts(cfg: ConvertConfig, ev: Event, parts: seq<Part>): Option<Buffers> {
    if parts == [] then Some(NO_BUFFERS)
    else
      var front := ConvertParts(cfg, ev, parts[..|parts| - 1]);
      if front.None? then None else ConvertPart(cfg, ev, parts[|parts| - 1], front.value)
  }

  /** Tool calls, then the remaining text, then the thoughts. */
  function Flush(ev: Event, b: Buffers): seq<Message> {
    var withCalls := if b.calls == [] then b.messages
                     else b.messages + [CallMessage(MessageId(ev.id, |b.messages|), RoleOf(ev), b.calls)];
    var withText := FlushText(ev, b.(messages := withCalls)).messages;
    if b.thought == "" then withText
    else withText + [TextMessage(MessageId(ev.id, |withText|), Reasoning, b.thought)]
  }

  /** The messages of one event; None when an argument map cannot be encoded or the converter fails. */
  function ConvertEvent(cfg: ConvertConfig, ev: Event): Option<seq<Message>> {
    var b := ConvertParts(cfg, ev, PartsOf(ev));
    if b.None? then None else Some(Flush(ev, b.value))
  }

  // ----- which events of a session are converted

  predicate Eligible(after: Option<int>, ev: Option<Event>) {
    ev.Some? && ev.value.content.Some? && (after.None? || ev.value.timestamp >= after.value)
  }

  function EligibleOnly(after: Option<int>, history: seq<Option<Event>>): seq<Event> {
    if history == [] then []
    else
      var front, last := EligibleOnly(after, history[..|history| - 1]), history[|history| - 1];
      if Eligible(after, last) then front + [last.value] else front
  }

  /** The first `limit` events; a limit of 0 or less means no limit. */
  function Limited(limit: int, events: seq<Event>): seq<Event> {
    if 0 < limit < |events| then events[..limit] else events
  }

  function FinalEvent(ev: Event): seq<Event> {
    if ev.partial then [] else [ev]
  }

  function Finals(events: seq<Event>): seq<Event> {
    Gather(FinalEvent, events)
  }

  function ConvertAll(cfg: ConvertConfig, events: seq<Event>): Option<seq<Message>> {
    if events == [] then Some([])
    else
      var front := ConvertAll(cfg, events[..|events| - 1]);
      if front.None? then None
      else
        var last := ConvertEvent(cfg, events[|events| - 1]);
        if last.None? then None else Some(front.value + last.value)
  }

  function Converted(cfg: ConvertConfig, history: seq<Option<Event>>): seq<Event> {
    Finals(Limited(cfg.limit, EligibleOnly(cfg.after, history)))
  }

  function ConvertSession(cfg: ConvertConfig, history: seq<Option<Event>>): Option<seq<Message>> {
    ConvertAll(cfg, Converted(cfg, history))
  }

  // ----- the loops

  method FoldEventsToMessages(eventId: string, startIndex: nat, events: seq<AgEvent>) returns (messages: seq<Message>)
    ensures messages == Folded(eventId, startIndex, events)
  {
    messages := [];
    var idx := startIndex;
    for i := 0 to |events|
      invariant messages == Folded(eventId, startIndex, events[..i])
      invariant idx == startIndex + |messages|
    {
      assert events[..i + 1][..i] == events[..i];
      match events[i] {
        case ActivitySnapshot(kind, content) =>
          messages := messages + [Message(MessageId(eventId, idx), Activity, content, [], "", kind)];
          idx := idx + 1;
        case TextContent(_, delta) =>
          messages := messages + [TextMessage(MessageId(eventId, idx), Assistant, delta)];
          idx := idx + 1;
        case _ =>
      }
    }
    assert events[..|events|] == events;
  }

  method ConvertEventLoop(cfg: ConvertConfig, ev: Event) returns (result: Option<seq<Message>>)
    ensures result == ConvertEvent(cfg, ev)
  {
    var parts := PartsOf(ev);
    var messages: seq<Message> := [];
    var textBuf, thoughtBuf: string := "", "";
    var toolCalls: seq<ToolCall> := [];
    var partIndex := 0;
    var i := 0;
    while i < |parts|
      invariant 0 <= i <= |parts|
      invariant partIndex == |messages|
      invariant ConvertParts(cfg, ev, parts[..i]) == Some(Buffers(messages, textBuf, toolCalls, thoughtBuf))
    {
      var part := parts[i];
      assert parts[..i + 1][..i] == parts[..i];
      ghost var before := Buffers(messages, textBuf, toolCalls, thoughtBuf);
      ghost var verdict := ConvertPart(cfg, ev, part, before);
      assert ConvertParts(cfg, ev, parts[..i + 1]) == verdict;
      i := i + 1;
      if part.NilPart? {
        continue;
      }
      if cfg.converter.Some? {
        var conversion := cfg.converter.value(ev, part);
        if conversion.Broken? {
          FailureIsFinal(cfg, ev, parts, i);
          return None;
        }
        if conversion.Handled? {
          var folded := FoldEventsToMessages(ev.id, partIndex, conversion.events);
          messages := messages + folded;
          partIndex := partIndex + |folded|;
          continue;
        }
      }
      if part.thought && part.text != "" {
        thoughtBuf := thoughtBuf + part.text;
        continue;
      }
      if part.text != "" && !part.thought {
        textBuf := textBuf + part.text;
        continue;
      }
      if part.call.Some? {
        if textBuf != "" {
          messages := messages + [TextMessage(MessageId(ev.id, partIndex), RoleOf(ev), textBuf)];
          partIndex := partIndex + 1;
          textBuf := "";
        }
        var args := MarshalMap(cfg.marshal, part.call.value.args);
        if args.None? {
          FailureIsFinal(cfg, ev, parts, i);
          return None;
        }
        toolCalls := toolCalls + [ToolCall(part.call.value.id, part.call.value.name, args.value)];
        continue;
      }
      if part.response.Some? {
        var json := MarshalMap(cfg.marshal, part.response.value.response);
        if json.None? {
          FailureIsFinal(cfg, ev, parts, i);
          return None;
        }
        messages := messages + [ToolMessage(MessageId(ev.id, partIndex), part.response.value.id, json.value)];
        partIndex := partIndex + 1;
        continue;
      }
    }
    assert parts[..|parts|] == parts;
    if |toolCalls| > 0 {
      messages := messages + [CallMessage(MessageId(ev.id, partIndex), RoleOf(ev), toolCalls)];
      partIndex := partIndex + 1;
    }
    if textBuf != "" {
      messages := messages + [TextMessage(MessageId(ev.id, partIndex), RoleOf(ev), textBuf)];
      partIndex := partIndex + 1;
    }
    if thoughtBuf != "" {
      messages := messages + [TextMessage(MessageId(ev.id, partIndex), Reasoning, thoughtBuf)];
      partIndex := partIndex + 1;
    }
    return Some(messages);
  }

  lemma {:induction false} FailureIsFinal(cfg: ConvertConfig, ev: Event, parts: seq<Part>, i: nat)
    requires i <= |parts| && ConvertParts(cfg, ev, parts[..i]).None?
    ensures ConvertParts(cfg, ev, parts).None?
    decreases |parts|
  {
    if i == |parts| {
      assert parts[..i] == parts;
    } else {
      assert parts[..|parts| - 1][..i] == parts[..i];
      FailureIsFinal(cfg, ev, parts[..|parts| - 1], i);
    }
  }

  method ConvertSessionToMessages(cfg: ConvertConfig,
          history: seq<Option<Event>>) returns (result: Option<seq<Message>>)
    ensures result == ConvertSession(cfg, history)
  {
    var messages: seq<Message> := [];
    var processed := 0;
    for i := 0 to |history|
      invariant processed == |EligibleOnly(cfg.after, history[..i])|
      invariant 0 < cfg.limit ==> processed <= cfg.limit
      invariant ConvertAll(cfg, Finals(EligibleOnly(cfg.after, history[..i]))) == Some(messages)
    {
      var item := history[i];
      EligibleStep(cfg.after, history, i);
      if item.None? || item.value.content.None? {
        continue;
      }
      var ev := item.value;
      if cfg.after.Some? && ev.timestamp < cfg.after.value {
        continue;
      }
      if cfg.limit > 0 && processed >= cfg.limit {
        LimitReached(cfg, history, i);
        return Some(messages);
      }
      processed := processed + 1;
      FinalsStep(cfg, EligibleOnly(cfg.after, history[..i]), ev);
      if ev.partial {
        continue;
      }
      var msgs := ConvertEventLoop(cfg, ev);
      if msgs.None? {
        ConversionStops(cfg, history, i + 1);
        return None;
      }
      messages := messages + msgs.value;
    }
    assert history[..|history|] == history;
    return Some(messages);
  }

  lemma EligibleStep(after: Option<int>, history: seq<Option<Event>>, i: nat)
    requires i < |history|
    ensures Eligible(after, history[i]) ==>
              EligibleOnly(after, history[..i + 1]) == EligibleOnly(after, history[..i]) + [history[i].value]
    ensures !Eligible(after, history[i]) ==> EligibleOnly(after, history[..i + 1]) == EligibleOnly(after, history[..i])
  {
    assert history[..i + 1][..i] == history[..i];
  }

  lemma FinalsStep(cfg: ConvertConfig, events: seq<Event>, ev: Event)
    ensures ev.partial ==> Finals(events + [ev]) == Finals(events)
    ensures !ev.partial ==> Finals(events + [ev]) == Finals(events) + [ev]
    ensures !ev.partial && ConvertAll(cfg, Finals(events)).Some? ==>
              ConvertAll(cfg, Finals(events + [ev])) ==
              if ConvertEvent(cfg, ev).None? then None
              else Some(ConvertAll(cfg, Finals(events)).value + ConvertEvent(cfg, ev).value)
  {
    GatherSnoc(FinalEvent, events, ev);
    assert (Finals(events) + [ev])[..|Finals(events)|] == Finals(events);
  }

  lemma LimitReached(cfg: ConvertConfig, history: seq<Option<Event>>, i: nat)
    requires i <= |history| && 0 < cfg.limit == |EligibleOnly(cfg.after, history[..i])|
    ensures Limited(cfg.limit, EligibleOnly(cfg.after, history)) == EligibleOnly(cfg.after, history[..i])
  {
    EligiblePrefix(cfg.after, history, i);
  }

  lemma ConversionStops(cfg: ConvertConfig, history: seq<Option<Event>>, i: nat)
    requires i <= |history|
    requires 0 < cfg.limit ==> |EligibleOnly(cfg.after, history[..i])| <= cfg.limit
    requires ConvertAll(cfg, Finals(EligibleOnly(cfg.after, history[..i]))).None?
    ensures ConvertSession(cfg, history).None?
  {
    EligiblePrefix(cfg.after, history, i);
    var seen, all := EligibleOnly(cfg.after, history[..i]), EligibleOnly(cfg.after, history);
    GatherPrefix(FinalEvent, seen, Limited(cfg.limit, all));
    AllFailureIsFinal(cfg, Finals(seen), Converted(cfg, history));
  }

  lemma {:induction false} EligiblePrefix(after: Option<int>, history: seq<Option<Event>>, i: nat)
    requires i <= |history|
    ensures EligibleOnly(after, history[..i]) <= EligibleOnly(after, history)
    decreases |history|
  {
    if i == |history| {
      assert history[..i] == history;
    } else {
      assert history[..|history| - 1][..i] == history[..i];
      EligiblePrefix(after, history[..|history| - 1], i);
    }
  }

  lemma {:induction false} AllFailureIsFinal(cfg: ConvertConfig, events: seq<Event>, more: seq<Event>)
    requires events <= more && ConvertAll(cfg, events).None?
    ensures ConvertAll(cfg, more).None?
    decreases |more|
  {
    if events != more {
      AllFailureIsFinal(cfg, events, more[..|more| - 1]);
    }
  }
}
