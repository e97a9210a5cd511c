/** The launcher's configuration and the calls it makes into code outside the repository:
    JSON encoding, id generation and ADK's unwrapping of confirmation calls. */
module Launcher {
  import opened Values
  import opened Adk
  import opened Protocol

  datatype Conversion = NotHandled | Handled(events: seq<AgEvent>) | Broken

  type Converter = (Event, Part) -> Conversion

  /** JSON encoding of a `map[string]any`; None is an encoding failure. */
  type Marshal = Option<Fields> -> Option<string>

  datatype Config = Config(
    appName: string,
    converter: Option<Converter>,
    marshal: Marshal,
    freshId: nat -> string,
    original: FunctionCall -> Option<FunctionCall>,
    hint: FunctionCall -> string)

  /** ADK's wrapper call for human confirmation. */
  const CONFIRMATION_NAME := "adk_request_confirmation"

  ghost predicate FreshIds(cfg: Config) {
    && (forall n: nat :: cfg.freshId(n) != "")
    && (forall m: nat, n: nat :: cfg.freshId(m) == cfg.freshId(n) ==> m == n)
  }

  /** A part converter, if any, that opens and closes nothing itself. */
  ghost predicate OnlyNeutral(converter: Option<Converter>) {
    converter.Some? ==>
      forall ev, part :: converter.value(ev, part).Handled? ==>
        forall i :: 0 <= i < |converter.value(ev, part).events| ==> Neutral(converter.value(ev, part).events[i])
  }

  ghost predicate NeutralConverter(cfg: Config) {
    OnlyNeutral(cfg.converter)
  }

  /** A part that the converter takes over, or fails on. */
  predicate Taken(converter: Option<Converter>, ev: Event, p: Part) {
    p.Part? && converter.Some? && !converter.value(ev, p).NotHandled?
  }

  /** The parts that the converter leaves to the launcher. */
  function Untaken(converter: Option<Converter>, ev: Event, parts: seq<Part>): seq<Part> {
    if parts == [] then []
    else
      var front, last := Untaken(converter, ev, parts[..|parts| - 1]), parts[|parts| - 1];
      if Taken(converter, ev, last) then front else front + [last]
  }

  lemma UntakenSnoc(converter: Option<Converter>, ev: Event, parts: seq<Part>, p: Part)
    ensures Untaken(converter, ev, parts + [p]) ==
            if Taken(converter, ev, p) then Untaken(converter, ev, parts) else Untaken(converter, ev, parts) + [p]
  {
    assert (parts + [p])[..|parts|] == parts;
  }

  lemma {:induction false} UntakenPrefix(converter: Option<Converter>, ev: Event, parts: seq<Part>, n: nat)
    requires n <= |parts|
    ensures Untaken(converter, ev, parts[..n]) <= Untaken(converter, ev, parts)
    decreases |parts|
  {
    if n == |parts| {
      assert parts[..n] == parts;
    } else {
      assert parts[..|parts| - 1][..n] == parts[..n];
      UntakenPrefix(converter, ev, parts[..|parts| - 1], n);
    }
  }

  /** An event without the parts that the converter takes over. */
  function Left(converter: Option<Converter>, ev: Event): Event {
    if ev.content.None? then ev
    else ev.(content := Some(ev.content.value.(parts := Untaken(converter, ev, PartsOf(ev)))))
  }

  lemma LeftParts(converter: Option<Converter>, ev: Event)
    ensures PartsOf(Left(converter, ev)) == Untaken(converter, ev, PartsOf(ev))
  {
  }
}
