/** What a reader sees of parts, events and messages: texts, thoughts, calls, results and
    the activities of a part converter. */
module Projections {
  import opened Values
  import opened Sequences
  import opened Adk
  import opened Protocol
  import opened Launcher

  /** A tool call as its id and name. */
  type CallRef = (string, string)

  /** An activity as its type and content. */
  type Card = (string, Value)

  // ----- of ADK parts

  function PartText(p: Part): string {
    if IsText(p) then p.text else ""
  }

  function PartThought(p: Part): string {
    if IsThought(p) then p.text else ""
  }

  function PartCall(p: Part): seq<CallRef> {
    if IsCall(p) then [(p.call.value.id, p.call.value.name)] else []
  }

  function PartResult(p: Part): seq<string> {
    if IsResponse(p) then [p.response.value.id] else []
  }

  // ----- of stream events

  function TextDelta(ev: AgEvent): string {
    if ev.TextContent? then ev.delta else ""
  }

  function ThoughtDelta(ev: AgEvent): string {
    if ev.ReasoningContent? then ev.delta else ""
  }

  function CallStart(ev: AgEvent): seq<CallRef> {
    if ev.ToolCallStart? then [(ev.callId, ev.name)] else []
  }

  function ResultId(ev: AgEvent): seq<string> {
    if ev.ToolCallResult? then [ev.callId] else []
  }

  function CardOf(ev: AgEvent): seq<Card> {
    if ev.ActivitySnapshot? then [(ev.activityType, ev.content)] else []
  }

  // ----- of messages

  predicate IsTextMessage(m: Message) {
    (m.role.User? || m.role.Assistant?) && m.toolCalls == [] && m.content.Str?
  }

  function MessageText(m: Message): string {
    if IsTextMessage(m) then m.content.s else ""
  }

  function MessageThought(m: Message): string {
    if m.role.Reasoning? && m.content.Str? then m.content.s else ""
  }

  function CallOf(c: ToolCall): seq<CallRef> {
    [(c.id, c.name)]
  }

  function MessageCalls(m: Message): seq<CallRef> {
    Gather(CallOf, m.toolCalls)
  }

  function MessageResult(m: Message): seq<string> {
    if m.role.Tool? then [m.toolCallId] else []
  }

  function MessageCard(m: Message): seq<Card> {
    if m.role.Activity? then [(m.activityType, m.content)] else []
  }

  /** The five projections side by side. */
  datatype Reading = Reading(
    text: string,
    thought: string,
    calls: seq<CallRef>,
    results: seq<string>,
    cards: seq<Card>)

  function Plus(a: Reading, b: Reading): Reading {
    Reading(a.text + b.text, a.thought + b.thought, a.calls + b.calls, a.results + b.results, a.cards + b.cards)
  }

  const NOTHING := Reading("", "", [], [], [])

  function OfParts(parts: seq<Part>): Reading {
    Reading(Gather(PartText, parts), Gather(PartThought, parts), Gather(PartCall, parts), Gather(PartResult, parts), [])
  }

  function OfStream(trace: seq<AgEvent>): Reading {
    Reading(Gather(TextDelta, trace), Gather(ThoughtDelta, trace), Gather(CallStart, trace), Gather(ResultId, trace),
            Gather(CardOf, trace))
  }

  function OfMessages(messages: seq<Message>): Reading {
    Reading(Gather(MessageText, messages), Gather(MessageThought, messages), Gather(MessageCalls, messages),
            Gather(MessageResult, messages), Gather(MessageCard, messages))
  }

  function OfPart(p: Part): Reading {
    Reading(PartText(p), PartThought(p), PartCall(p), PartResult(p), [])
  }

  function OfEvent(ev: AgEvent): Reading {
    Reading(TextDelta(ev), ThoughtDelta(ev), CallStart(ev), ResultId(ev), CardOf(ev))
  }

  function OfMessage(m: Message): Reading {
    Reading(MessageText(m), MessageThought(m), MessageCalls(m), MessageResult(m), MessageCard(m))
  }

  lemma PlusNothing(a: Reading)
    ensures Plus(a, NOTHING) == a == Plus(NOTHING, a)
  {
  }

  lemma PlusAssociates(a: Reading, b: Reading, c: Reading)
    ensures Plus(Plus(a, b), c) == Plus(a, Plus(b, c))
  {
  }

  lemma PartsSnoc(parts: seq<Part>, p: Part)
    ensures OfParts(parts + [p]) == Plus(OfParts(parts), OfPart(p))
  {
    GatherSnoc(PartText, parts, p);
    GatherSnoc(PartThought, parts, p);
    GatherSnoc(PartCall, parts, p);
    GatherSnoc(PartResult, parts, p);
  }

  lemma PartsAppend(a: seq<Part>, b: seq<Part>)
    ensures OfParts(a + b) == Plus(OfParts(a), OfParts(b))
  {
    GatherAppend(PartText, a, b);
    GatherAppend(PartThought, a, b);
    GatherAppend(PartCall, a, b);
    GatherAppend(PartResult, a, b);
  }

  lemma StreamSnoc(trace: seq<AgEvent>, ev: AgEvent)
    ensures OfStream(trace + [ev]) == Plus(OfStream(trace), OfEvent(ev))
  {
    GatherSnoc(TextDelta, trace, ev);
    GatherSnoc(ThoughtDelta, trace, ev);
    GatherSnoc(CallStart, trace, ev);
    GatherSnoc(ResultId, trace, ev);
    GatherSnoc(CardOf, trace, ev);
  }

  lemma MessagesSnoc(messages: seq<Message>, m: Message)
    ensures OfMessages(messages + [m]) == Plus(OfMessages(messages), OfMessage(m))
  {
    GatherSnoc(MessageText, messages, m);
    GatherSnoc(MessageThought, messages, m);
    GatherSnoc(MessageCalls, messages, m);
    GatherSnoc(MessageResult, messages, m);
    GatherSnoc(MessageCard, messages, m);
  }

  lemma MessagesAppend(a: seq<Message>, b: seq<Message>)
    ensures OfMessages(a + b) == Plus(OfMessages(a), OfMessages(b))
  {
    GatherAppend(MessageText, a, b);
    GatherAppend(MessageThought, a, b);
    GatherAppend(MessageCalls, a, b);
    GatherAppend(MessageResult, a, b);
    GatherAppend(MessageCard, a, b);
  }

  // ----- of events, when a converter takes over some of their parts

  function PartCards(converter: Option<Converter>, ev: Event, p: Part): seq<Card> {
    if Taken(converter, ev, p) && converter.value(ev, p).Handled? then Gather(CardOf, converter.value(ev, p).events)
    else []
  }

  function Cards(converter: Option<Converter>, ev: Event, parts: seq<Part>): seq<Card> {
    if parts == [] then []
    else Cards(converter, ev, parts[..|parts| - 1]) + PartCards(converter, ev, parts[|parts| - 1])
  }

  /** A part is read as itself, or as the activities of the converter that takes it over. */
  function ReadPart(converter: Option<Converter>, ev: Event, p: Part): Reading {
    if Taken(converter, ev, p) then NOTHING.(cards := PartCards(converter, ev, p)) else OfPart(p)
  }

  function ReadParts(converter: Option<Converter>, ev: Event, parts: seq<Part>): Reading {
    OfParts(Untaken(converter, ev, parts)).(cards := Cards(converter, ev, parts))
  }

  function ReadEvent(converter: Option<Converter>, ev: Event): Reading {
    ReadParts(converter, ev, PartsOf(ev))
  }

  function ReadAll(converter: Option<Converter>, events: seq<Event>): Reading {
    if events == [] then NOTHING
    else Plus(ReadAll(converter, events[..|events| - 1]), ReadEvent(converter, events[|events| - 1]))
  }

  lemma ReadSnoc(converter: Option<Converter>, ev: Event, parts: seq<Part>, p: Part)
    ensures ReadParts(converter, ev, parts + [p]) == Plus(ReadParts(converter, ev, parts), ReadPart(converter, ev, p))
  {
    hide Gather, PartCards;
    assert (parts + [p])[..|parts|] == parts;
    UntakenSnoc(converter, ev, parts, p);
    if !Taken(converter, ev, p) {
      PartsSnoc(Untaken(converter, ev, parts), p);
      NoCards(converter, ev, p);
    }
  }

  lemma NoCards(converter: Option<Converter>, ev: Event, p: Part)
    requires !Taken(converter, ev, p)
    ensures PartCards(converter, ev, p) == []
  {
  }
}
