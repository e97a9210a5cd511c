/** Where an agent run ends, decided by what the agent yields and nothing else. */
module Halting {
  import opened Values
  import opened Adk
  import opened Protocol
  import opened Launcher
  import opened Emission
  import opened StreamSpec

  // ----- parts and events

  /** A confirmation call that unwraps to a call whose arguments encode. */
  predicate Asks(cfg: Config, p: Part) {
    && IsCall(p) && p.call.value.name == CONFIRMATION_NAME
    && cfg.original(p.call.value).Some? && cfg.marshal(cfg.original(p.call.value).value.args).Some?
  }

  /** A part that ends the run when it is translated: a confirmation call, good or bad, or
      arguments or a response that cannot be encoded. */
  predicate EndsPlain(cfg: Config, p: Part) {
    || (IsCall(p) && (p.call.value.name == CONFIRMATION_NAME || cfg.marshal(p.call.value.args).None?))
    || (IsResponse(p) && cfg.marshal(p.response.value.response).None?)
  }

  predicate EndsRun(cfg: Config, ev: Event, p: Part) {
    if Taken(cfg.converter, ev, p) then cfg.converter.value(ev, p).Broken? else EndsPlain(cfg, p)
  }

  predicate Pauses(cfg: Config, ev: Event, p: Part) {
    !Taken(cfg.converter, ev, p) && Asks(cfg, p)
  }

  /** The first part from i on that ends the run; the number of parts if none does. */
  function EndingPart(cfg: Config, ev: Event, i: nat): (m: nat)
    requires i <= |PartsOf(ev)|
    ensures i <= m <= |PartsOf(ev)|
    ensures forall j :: i <= j < m ==> !EndsRun(cfg, ev, PartsOf(ev)[j])
    ensures m < |PartsOf(ev)| ==> EndsRun(cfg, ev, PartsOf(ev)[m])
    decreases |PartsOf(ev)| - i
  {
    if i == |PartsOf(ev)| || EndsRun(cfg, ev, PartsOf(ev)[i]) then i else EndingPart(cfg, ev, i + 1)
  }

  predicate PausesIn(cfg: Config, ev: Event) {
    var m := EndingPart(cfg, ev, 0);
    m < |PartsOf(ev)| && Pauses(cfg, ev, PartsOf(ev)[m])
  }

  // ----- arrivals

  /** An arrival at which the run ends: an iterator error, a reported error, or an event
      with a part that ends it. */
  predicate EndsAt(cfg: Config, item: Item) {
    || item.Failure?
    || (item.Yielded? &&
        (item.event.errorMessage != "" || EndingPart(cfg, item.event, 0) < |PartsOf(item.event)|))
  }

  predicate PausesAt(cfg: Config, item: Item) {
    item.Yielded? && item.event.errorMessage == "" && PausesIn(cfg, item.event)
  }

  /** The first arrival from i on at which the run ends; their number if none does. */
  function EndingArrival(cfg: Config, arrivals: seq<Arrival>, i: nat): (n: nat)
    requires i <= |arrivals|
    ensures i <= n <= |arrivals|
    ensures forall j :: i <= j < n ==> !EndsAt(cfg, arrivals[j].item)
    ensures n < |arrivals| ==> EndsAt(cfg, arrivals[n].item)
    decreases |arrivals| - i
  {
    if i == |arrivals| || EndsAt(cfg, arrivals[i].item) then i else EndingArrival(cfg, arrivals, i + 1)
  }

  /** How many arrivals a run goes through before the one that ends it. */
  function Survived(cfg: Config, agent: Agent): (n: nat)
    ensures n <= |agent.arrivals|
  {
    if agent.startError.Some? then 0 else EndingArrival(cfg, agent.arrivals, 0)
  }

  predicate Paused(cfg: Config, agent: Agent) {
    && agent.startError.None? && Survived(cfg, agent) < |agent.arrivals|
    && PausesAt(cfg, agent.arrivals[Survived(cfg, agent)].item)
  }

  // ----- what the run asks for there

  /** The interrupt for a confirmation call: under that call's own id, for the call it wraps. */
  function AskedBy(cfg: Config, p: Part): Interrupt
    requires Asks(cfg, p)
  {
    InterruptFor(cfg, p.call.value, cfg.original(p.call.value).value)
  }

  function AskedIn(cfg: Config, ev: Event): Interrupt
    requires PausesIn(cfg, ev)
  {
    AskedBy(cfg, PartsOf(ev)[EndingPart(cfg, ev, 0)])
  }

  /** The interrupt that an agent's run ends with. */
  function Asked(cfg: Config, agent: Agent): Interrupt
    requires Paused(cfg, agent)
  {
    AskedIn(cfg, agent.arrivals[Survived(cfg, agent)].item.event)
  }

  // ----- the run ends there

  lemma PartEnds(cfg: Config, stored: Option<Session>, ev: Event, p: Part, sys: Sys)
    ensures var status := OnePart(cfg, stored, ev, p, sys).1;
            (status.Continue? <==> !EndsRun(cfg, ev, p)) && (status.Done? <==> Pauses(cfg, ev, p))
  {
    hide Thought, Text, CloseText, CloseReasoning, Finalize, BoundarySnapshots;
  }

  lemma {:induction false} PartsEnd(cfg: Config, stored: Option<Session>, ev: Event, i: nat, sys: Sys)
    requires i <= |PartsOf(ev)|
    ensures var status, m := RunParts(cfg, Quiet(), stored, ev, i, sys).1, EndingPart(cfg, ev, i);
            && (status.Continue? <==> m == |PartsOf(ev)|)
            && (status.Done? <==> m < |PartsOf(ev)| && Pauses(cfg, ev, PartsOf(ev)[m]))
    decreases |PartsOf(ev)| - i
  {
    hide OnePart, EndsRun, Pauses, Send;
    QuietSends(sys.offered);
    if i < |PartsOf(ev)| {
      PartEnds(cfg, stored, ev, PartsOf(ev)[i], sys);
      var (next, status) := OnePart(cfg, stored, ev, PartsOf(ev)[i], sys);
      if status.Continue? {
        PartsEnd(cfg, stored, ev, i + 1, next);
      }
    }
  }

  lemma EventEnds(cfg: Config, stored: Option<Session>, ev: Event, sys: Sys)
    ensures var status := RunEvent(cfg, Quiet(), stored, ev, sys).1;
            && (status.Continue? <==> EndingPart(cfg, ev, 0) == |PartsOf(ev)|)
            && (status.Done? <==> PausesIn(cfg, ev))
  {
    hide RunParts, Ending, ChangeStep, Send, EndingPart, Pauses;
    var begun := ChangeStep(cfg.appName, ev.author, sys);
    PartsEnd(cfg, stored, ev, 0, begun);
    QuietSends(Ending(ev, RunParts(cfg, Quiet(), stored, ev, 0, begun).0).offered);
  }
}
