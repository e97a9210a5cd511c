/** The ids of converted messages: stable, and when they are unique (agui/convert.go). */
module MessageIds {
  import opened Values
  import opened Adk
  import opened Protocol
  import opened Launcher
  import opened Convert

  lemma {:induction false} DecimalIsDigits(n: nat)
    ensures Decimal(n) != "" && forall i :: 0 <= i < |Decimal(n)| ==> Decimal(n)[i] != '-'
  {
    if n >= 10 {
      DecimalIsDigits(n / 10);
    }
  }

  lemma DigitInjective(a: nat, b: nat)
    requires a < 10 && b < 10 && Digit(a) == Digit(b)
    ensures a == b
  {
  }

  lemma {:induction false} DecimalInjective(m: nat, n: nat)
    requires Decimal(m) == Decimal(n)
    ensures m == n
    decreases m
  {
    if m < 10 {
      if n >= 10 {
        DecimalIsDigits(n / 10);
      } else {
        DigitInjective(m, n);
      }
    } else if n < 10 {
      DecimalIsDigits(m / 10);
    } else {
      var front := Decimal(m)[..|Decimal(m)| - 1];
      assert front == Decimal(m / 10) == Decimal(n / 10);
      DecimalInjective(m / 10, n / 10);
      assert Decimal(m)[|front|] == Digit(m % 10) && Decimal(n)[|front|] == Digit(n % 10);
      DigitInjective(m % 10, n % 10);
    }
  }

  /** The number that a row of digits stands for. */
  function ReadNumber(s: string): nat {
    if s == "" then 0
    else
      var last := s[|s| - 1];
      10 * ReadNumber(s[..|s| - 1]) + if '0' <= last <= '9' then last as nat - '0' as nat else 0
  }

  /** A message number is written in decimal: it reads back as itself and has no leading zero. */
  lemma {:induction false} NumberReadsBack(n: nat)
    ensures ReadNumber(Decimal(n)) == n && Decimal(n) != "" && (n > 0 ==> Decimal(n)[0] != '0')
    ensures forall i :: 0 <= i < |Decimal(n)| ==> '0' <= Decimal(n)[i] <= '9'
  {
    DigitReads(n % 10);
    if n >= 10 {
      NumberReadsBack(n / 10);
      assert Decimal(n)[..|Decimal(n)| - 1] == Decimal(n / 10);
    } else {
      assert Decimal(n)[..0] == "";
    }
  }

  lemma DigitReads(d: nat)
    requires d < 10
    ensures '0' <= Digit(d) <= '9' && Digit(d) as nat - '0' as nat == d
  {
  }

  lemma SuffixLength(e: string, i: nat, f: string, j: nat)
    requires e + "-" + Decimal(i) == f + "-" + Decimal(j)
    ensures |Decimal(i)| >= |Decimal(j)|
  {
    DecimalIsDigits(j);
    var s := f + "-" + Decimal(j);
    forall x | |f| < x < |s|
      ensures s[x] != '-'
    {
      assert s[x] == Decimal(j)[x - |f| - 1];
    }
    assert (e + "-" + Decimal(i))[|e|] == '-';
  }

  /** Two message ids coincide only for the same message of the same event, or when one
      event's own id already looks like a numbered id of the other. */
  lemma SameIdWhen(e: string, i: nat, f: string, j: nat)
    ensures MessageId(e, i) == MessageId(f, j) <==>
              || (e == f && i == j)
              || (i == 0 < j && e == MessageId(f, j))
              || (j == 0 < i && f == MessageId(e, i))
  {
    if 0 < i && 0 < j && MessageId(e, i) == MessageId(f, j) {
      SuffixLength(e, i, f, j);
      SuffixLength(f, j, e, i);
      var s := MessageId(e, i);
      assert s[..|e|] == e && s[..|f|] == f;
      assert s[|e| + 1..] == Decimal(i) && s[|f| + 1..] == Decimal(j);
      DecimalInjective(i, j);
    }
  }

  lemma NumberedIsLonger(e: string, i: nat)
    requires 0 < i
    ensures |MessageId(e, i)| > |e| && MessageId(e, i) != e
  {
  }

  // ----- the i-th message of an event

  predicate Numbered(eventId: string, from: nat, messages: seq<Message>) {
    forall i :: 0 <= i < |messages| ==> messages[i].id == MessageId(eventId, from + i)
  }

  lemma {:induction false} FoldedNumbered(eventId: string, index: nat, events: seq<AgEvent>)
    ensures Numbered(eventId, index, Folded(eventId, index, events))
  {
    if events != [] {
      FoldedNumbered(eventId, index, events[..|events| - 1]);
    }
  }

  lemma PlainPartNumbered(marshal: Marshal, ev: Event, part: Part, b: Buffers)
    requires part.Part? && Numbered(ev.id, 0, b.messages) && ConvertPlainPart(marshal, ev, part, b).Some?
    ensures Numbered(ev.id, 0, ConvertPlainPart(marshal, ev, part, b).value.messages)
  {
    hide Decimal, MessageId;
  }

  lemma PartNumbered(cfg: ConvertConfig, ev: Event, part: Part, b: Buffers)
    requires Numbered(ev.id, 0, b.messages) && ConvertPart(cfg, ev, part, b).Some?
    ensures Numbered(ev.id, 0, ConvertPart(cfg, ev, part, b).value.messages)
  {
    hide Decimal, MessageId, Folded, ConvertPlainPart;
    if part.Part? {
      if cfg.converter.Some? && cfg.converter.value(ev, part).Handled? {
        FoldedNumbered(ev.id, |b.messages|, cfg.converter.value(ev, part).events);
      } else if cfg.converter.None? || cfg.converter.value(ev, part).NotHandled? {
        PlainPartNumbered(cfg.marshal, ev, part, b);
      }
    }
  }

  lemma {:induction false} PartsNumbered(cfg: ConvertConfig, ev: Event, parts: seq<Part>)
    requires ConvertParts(cfg, ev, parts).Some?
    ensures Numbered(ev.id, 0, ConvertParts(cfg, ev, parts).value.messages)
  {
    if parts != [] {
      var front, last := parts[..|parts| - 1], parts[|parts| - 1];
      PartsNumbered(cfg, ev, front);
      PartNumbered(cfg, ev, last, ConvertParts(cfg, ev, front).value);
    }
  }

  /** Message i of an event has id MessageId(event id, i), converter output included. */
  lemma EventNumbered(cfg: ConvertConfig, ev: Event)
    requires ConvertEvent(cfg, ev).Some?
    ensures Numbered(ev.id, 0, ConvertEvent(cfg, ev).value)
  {
    hide Decimal, MessageId, ConvertParts;
    PartsNumbered(cfg, ev, PartsOf(ev));
  }

  // ----- a whole session

  lemma {:induction false} PrefixConverts(cfg: ConvertConfig, events: seq<Event>, a: nat)
    requires a <= |events| && ConvertAll(cfg, events).Some?
    ensures ConvertAll(cfg, events[..a]).Some? && ConvertAll(cfg, events[..a]).value <= ConvertAll(cfg, events).value
    decreases |events|
  {
    if a == |events| {
      assert events[..a] == events;
    } else {
      assert events[..|events| - 1][..a] == events[..a];
      PrefixConverts(cfg, events[..|events| - 1], a);
    }
  }

  /** Where the messages of event a begin. */
  function Offset(cfg: ConvertConfig, events: seq<Event>, a: nat): nat
    requires a <= |events| && ConvertAll(cfg, events[..a]).Some?
  {
    |ConvertAll(cfg, events[..a]).value|
  }

  lemma MessageAt(cfg: ConvertConfig, events: seq<Event>, a: nat, i: nat)
    requires a < |events| && ConvertAll(cfg, events).Some?
    ensures ConvertEvent(cfg, events[a]).Some? && ConvertAll(cfg, events[..a]).Some?
    ensures i < |ConvertEvent(cfg, events[a]).value| ==>
              && Offset(cfg, events, a) + i < |ConvertAll(cfg, events).value|
              && ConvertAll(cfg, events).value[Offset(cfg, events, a) + i] == ConvertEvent(cfg, events[a]).value[i]
              && ConvertAll(cfg, events).value[Offset(cfg, events, a) + i].id == MessageId(events[a].id, i)
  {
    hide ConvertEvent, MessageId;
    PrefixConverts(cfg, events, a + 1);
    assert events[..a + 1][..a] == events[..a];
    EventNumbered(cfg, events[a]);
  }

  lemma {:induction false} Locate(cfg: ConvertConfig, events: seq<Event>, p: nat) returns (a: nat, i: nat)
    requires ConvertAll(cfg, events).Some? && p < |ConvertAll(cfg, events).value|
    ensures a < |events| && ConvertEvent(cfg, events[a]).Some? && i < |ConvertEvent(cfg, events[a]).value|
    ensures ConvertAll(cfg, events[..a]).Some? && Offset(cfg, events, a) + i == p
    decreases |events|
  {
    var front := events[..|events| - 1];
    assert events[..|events| - 1] == front;
    if p < |ConvertAll(cfg, front).value| {
      a, i := Locate(cfg, front, p);
      assert front[..a] == events[..a];
    } else {
      a, i := |events| - 1, p - |ConvertAll(cfg, front).value|;
    }
  }

  predicate DistinctEvents(events: seq<Event>) {
    forall a, b :: 0 <= a < b < |events| ==> events[a].id != events[b].id
  }

  predicate DistinctMessages(messages: seq<Message>) {
    forall p, q :: 0 <= p < q < |messages| ==> messages[p].id != messages[q].id
  }

  // ----- how many messages an event gives, counted from its parts

  /** Messages so far, and which buffers are not empty. */
  datatype Tally = Tally(messages: nat, text: bool, calls: bool, thought: bool)

  function Bit(b: bool): nat {
    if b then 1 else 0
  }

  /** How many of a converter's events become messages. */
  function FoldedCount(events: seq<AgEvent>): nat {
    if events == [] then 0
    else
      var last := events[|events| - 1];
      FoldedCount(events[..|events| - 1]) + Bit(last.ActivitySnapshot? || last.TextContent?)
  }

  function TallyPart(cfg: ConvertConfig, ev: Event, part: Part, t: Tally): Tally {
    if part.NilPart? then t
    else if cfg.converter.Some? && cfg.converter.value(ev, part).Handled? then
      t.(messages := t.messages + FoldedCount(cfg.converter.value(ev, part).events))
    else if part.text != "" then if part.thought then t.(thought := true) else t.(text := true)
    else if part.call.Some? then Tally(t.messages + Bit(t.text), false, true, t.thought)
    else t.(messages := t.messages + Bit(part.response.Some?))
  }

  function TallyParts(cfg: ConvertConfig, ev: Event, parts: seq<Part>): Tally {
    if parts == [] then Tally(0, false, false, false)
    else TallyPart(cfg, ev, parts[|parts| - 1], TallyParts(cfg, ev, parts[..|parts| - 1]))
  }

  /** A count that needs no conversion: one message per text run before a call, per response
      and per folded event, one for all calls, one for the last text, one for the thoughts. */
  function MessageCount(cfg: ConvertConfig, ev: Event): nat {
    var t := TallyParts(cfg, ev, PartsOf(ev));
    t.messages + Bit(t.calls) + Bit(t.text) + Bit(t.thought)
  }

  predicate Tallies(b: Buffers, t: Tally) {
    && |b.messages| == t.messages && (b.text != "" <==> t.text)
    && (b.calls != [] <==> t.calls) && (b.thought != "" <==> t.thought)
  }

  lemma {:induction false} FoldedCounts(eventId: string, index: nat, events: seq<AgEvent>)
    ensures |Folded(eventId, index, events)| == FoldedCount(events)
  {
    if events != [] {
      FoldedCounts(eventId, index, events[..|events| - 1]);
    }
  }

  lemma {:induction false} PartsTally(cfg: ConvertConfig, ev: Event, parts: seq<Part>)
    requires ConvertParts(cfg, ev, parts).Some?
    ensures Tallies(ConvertParts(cfg, ev, parts).value, TallyParts(cfg, ev, parts))
  {
    hide Folded, MessageId;
    if parts != [] {
      var front, last := parts[..|parts| - 1], parts[|parts| - 1];
      PartsTally(cfg, ev, front);
      if last.Part? && cfg.converter.Some? && cfg.converter.value(ev, last).Handled? {
        FoldedCounts(ev.id, |ConvertParts(cfg, ev, front).value.messages|, cfg.converter.value(ev, last).events);
      }
    }
  }

  lemma CountFromParts(cfg: ConvertConfig, ev: Event)
    requires ConvertEvent(cfg, ev).Some?
    ensures |ConvertEvent(cfg, ev).value| == MessageCount(cfg, ev)
  {
    hide MessageId, ConvertParts, TallyParts;
    PartsTally(cfg, ev, PartsOf(ev));
  }

  // ----- when the ids of a session are unique

  /** Event a's own id reads as the numbered id of message j of event b, both messages
      existing; decided by the events alone, before any conversion. */
  predicate Clash(cfg: ConvertConfig, events: seq<Event>, a: nat, b: nat, j: nat)
    requires a < |events| && b < |events|
  {
    && MessageCount(cfg, events[a]) > 0 && 0 < j < MessageCount(cfg, events[b])
    && events[a].id == MessageId(events[b].id, j)
  }

  ghost predicate NoClash(cfg: ConvertConfig, events: seq<Event>) {
    forall a, b, j: nat :: 0 <= a < |events| && 0 <= b < |events| ==> !Clash(cfg, events, a, b, j)
  }

  /** Over a whole session with distinct event ids, message ids are unique exactly when no
      event id reads as a numbered id of another event. */
  lemma IdsAreUniqueIff(cfg: ConvertConfig, events: seq<Event>)
    requires DistinctEvents(events) && ConvertAll(cfg, events).Some?
    ensures DistinctMessages(ConvertAll(cfg, events).value) <==> NoClash(cfg, events)
  {
    var messages := ConvertAll(cfg, events).value;
    if NoClash(cfg, events) {
      forall p, q | 0 <= p < q < |messages|
        ensures messages[p].id != messages[q].id
      {
        DistinctAt(cfg, events, p, q);
      }
    }
    if DistinctMessages(messages) {
      forall a, b, j: nat | 0 <= a < |events| && 0 <= b < |events|
        ensures !Clash(cfg, events, a, b, j)
      {
        MessageAt(cfg, events, a, 0);
        MessageAt(cfg, events, b, j);
        if Clash(cfg, events, a, b, j) {
          ClashCollides(cfg, events, a, b, j);
        }
      }
    }
  }

  lemma DistinctAt(cfg: ConvertConfig, events: seq<Event>, p: nat, q: nat)
    requires DistinctEvents(events) && ConvertAll(cfg, events).Some? && NoClash(cfg, events)
    requires p < q < |ConvertAll(cfg, events).value|
    ensures ConvertAll(cfg, events).value[p].id != ConvertAll(cfg, events).value[q].id
  {
    hide ConvertAll, ConvertEvent, MessageId, MessageCount;
    var a, i := Locate(cfg, events, p);
    var b, j := Locate(cfg, events, q);
    MessageAt(cfg, events, a, i);
    MessageAt(cfg, events, b, j);
    SameIdWhen(events[a].id, i, events[b].id, j);
    CountFromParts(cfg, events[a]);
    CountFromParts(cfg, events[b]);
    assert !Clash(cfg, events, a, b, j) && !Clash(cfg, events, b, a, i);
  }

  lemma ClashCollides(cfg: ConvertConfig, events: seq<Event>, a: nat, b: nat, j: nat)
    requires a < |events| && b < |events| && ConvertAll(cfg, events).Some? && Clash(cfg, events, a, b, j)
    ensures !DistinctMessages(ConvertAll(cfg, events).value)
  {
    hide ConvertAll, ConvertEvent, Decimal, MessageCount;
    MessageAt(cfg, events, a, 0);
    MessageAt(cfg, events, b, j);
    CountFromParts(cfg, events[a]);
    CountFromParts(cfg, events[b]);
    var p, q := Offset(cfg, events, a), Offset(cfg, events, b) + j;
    var messages := ConvertAll(cfg, events).value;
    assert messages[p].id == messages[q].id;
    NumberedIsLonger(events[b].id, j);
    if a < b {
      OffsetsGrow(cfg, events, a, b);
    } else {
      OffsetsGrow(cfg, events, b, a);
    }
  }

  lemma OffsetsGrow(cfg: ConvertConfig, events: seq<Event>, a: nat, b: nat)
    requires a < b <= |events| && ConvertAll(cfg, events).Some?
    ensures ConvertAll(cfg, events[..a]).Some? && ConvertAll(cfg, events[..b]).Some? && ConvertEvent(cfg, events[a]).Some?
    ensures Offset(cfg, events, a) + |ConvertEvent(cfg, events[a]).value| <= Offset(cfg, events, b)
  {
    hide ConvertEvent;
    PrefixConverts(cfg, events, b);
    assert events[..b][..a + 1] == events[..a + 1];
    PrefixConverts(cfg, events[..b], a + 1);
    assert events[..a + 1][..a] == events[..a];
  }

  /** Event ids of one length never clash. */
  lemma EqualLengthsSuffice(cfg: ConvertConfig, events: seq<Event>)
    requires forall a, b :: 0 <= a < |events| && 0 <= b < |events| ==> |events[a].id| == |events[b].id|
    ensures NoClash(cfg, events)
  {
    forall a, b, j: nat | 0 <= a < |events| && 0 <= b < |events|
      ensures !Clash(cfg, events, a, b, j)
    {
      if 0 < j {
        NumberedIsLonger(events[b].id, j);
      }
    }
  }

  function TextPart(text: string, thought: bool): Part {
    Part(text, thought, None, None)
  }

  function ModelEvent(id: string, parts: seq<Part>): Event {
    Event(id, "", false, Some(Content("model", parts)), [], false, "", "", 0)
  }

  /** Distinct event ids are not enough: an event "e" with an answer and a thought and an
      event "e-1" with an answer give the message id "e-1" twice. */
  lemma IdsCanClash(cfg: ConvertConfig)
    requires cfg.converter.None?
    ensures var events := [ModelEvent("e", [TextPart("hi", false), TextPart("hm", true)]),
                           ModelEvent("e-1", [TextPart("yo", false)])];
            && DistinctEvents(events) && ConvertAll(cfg, events).Some?
            && !DistinctMessages(ConvertAll(cfg, events).value)
  {
    var first := ModelEvent("e", [TextPart("hi", false), TextPart("hm", true)]);
    var second := ModelEvent("e-1", [TextPart("yo", false)]);
    var events := [first, second];
    OneText(cfg, first, TextPart("hi", false));
    OneText(cfg, second, TextPart("yo", false));
    assert PartsOf(first)[..|PartsOf(first)| - 1] == [TextPart("hi", false)];
    assert ConvertAll(cfg, events).Some? by {
      hide Flush;
      assert [first][..0] == [] && events[..|events| - 1] == [first];
      assert ConvertAll(cfg, []).Some? && ConvertAll(cfg, [first]).Some?;
    }
    assert MessageId("e", 1) == "e-1" == events[1].id && events[0].id == "e";
    assert Clash(cfg, events, 1, 0, 1);
    hide ConvertAll, MessageCount, TallyParts, ConvertParts;
    IdsAreUniqueIff(cfg, events);
  }

  lemma OneText(cfg: ConvertConfig, ev: Event, part: Part)
    requires cfg.converter.None? && IsText(part)
    ensures ConvertParts(cfg, ev, [part]).Some? && TallyParts(cfg, ev, [part]) == Tally(0, true, false, false)
  {
    assert [part][..0] == [];
  }
}
