/** A client's copy of the session state, kept by snapshots and JSON Patch (RFC 6902). */
module Replica {
  import opened Values
  import opened Adk
  import opened Protocol
  import opened Launcher
  import opened Emission
  import opened Sessions
  import opened Convert
  import opened StreamSpec
  import opened RunSpec
  import opened Halting
  import opened Outcomes
  import Pointer

  /** An "add" at a top-level member (section 4.1 of RFC 6902): sets it, new or not. None:
      not an add, not a pointer, or a pointer of more than one token. */
  function ApplyOp(doc: Fields, op: PatchOp): Option<Fields> {
    if op.op != "add" || op.path == "" || op.path[0] != '/' || '/' in op.path[1..] then None
    else Some(doc[Pointer.Unescape(op.path[1..]) := op.value])
  }

  function ApplyOps(doc: Fields, ops: seq<PatchOp>): Option<Fields> {
    if ops == [] then Some(doc)
    else
      var before := ApplyOps(doc, ops[..|ops| - 1]);
      if before.None? then None else ApplyOp(before.value, ops[|ops| - 1])
  }

  function ApplyEvent(doc: Fields, ev: AgEvent): Option<Fields> {
    match ev
    case StateSnapshot(state) => Some(state)
    case StateDelta(ops) => ApplyOps(doc, ops)
    case _ => Some(doc)
  }

  /** The client's document after a stream; it starts empty. */
  function Mirror(trace: seq<AgEvent>): Option<Fields> {
    if trace == [] then Some(map[])
    else
      var before := Mirror(trace[..|trace| - 1]);
      if before.None? then None else ApplyEvent(before.value, trace[|trace| - 1])
  }

  lemma MirrorSnoc(trace: seq<AgEvent>, ev: AgEvent)
    ensures Mirror(trace + [ev]) == if Mirror(trace).None? then None else ApplyEvent(Mirror(trace).value, ev)
  {
    assert (trace + [ev])[..|trace|] == trace;
  }

  /** The operation made for a key sets exactly that key. */
  lemma OpSetsKey(doc: Fields, entry: (string, Value))
    ensures ApplyOp(doc, OpOf(entry)) == Some(doc[entry.0 := entry.1])
  {
    var path := OpOf(entry).path;
    assert path[1..] == Pointer.Escape(entry.0);
    Pointer.EscapeIsLegal(entry.0);
    Pointer.UnescapeEscape(entry.0);
  }

  lemma {:induction false} OpsOverride(doc: Fields, delta: seq<(string, Value)>)
    ensures ApplyOps(doc, OpsOf(delta)) == Some(Override(doc, MapOf(delta)))
  {
    if delta == [] {
      assert Override(doc, map[]) == doc;
    } else {
      var front, last := delta[..|delta| - 1], delta[|delta| - 1];
      OpsOverride(doc, front);
      assert OpsOf(delta)[..|delta| - 1] == OpsOf(front);
      OpSetsKey(Override(doc, MapOf(front)), last);
      assert Override(doc, MapOf(front))[last.0 := last.1] == Override(doc, MapOf(delta));
    }
  }

  lemma {:induction false} MapOfMember(entries: seq<(string, Value)>, i: nat)
    requires i < |entries| && DistinctKeys(entries)
    ensures entries[i].0 in MapOf(entries) && MapOf(entries)[entries[i].0] == entries[i].1
    decreases |entries|
  {
    if i < |entries| - 1 {
      MapOfMember(entries[..|entries| - 1], i);
    }
  }

  lemma {:induction false} MapOfKey(entries: seq<(string, Value)>, key: string)
    requires key in MapOf(entries)
    ensures exists i :: 0 <= i < |entries| && entries[i] == (key, MapOf(entries)[key])
  {
    var front, last := entries[..|entries| - 1], entries[|entries| - 1];
    if key != last.0 {
      MapOfKey(front, key);
      var i :| 0 <= i < |front| && front[i] == (key, MapOf(front)[key]);
      assert entries[i] == front[i];
    } else {
      assert entries[|entries| - 1] == (key, MapOf(entries)[key]);
    }
  }

  /** Ranging over the same Go map in another order gives the same document. */
  lemma DeltaOrderIrrelevant(xs: seq<(string, Value)>, ys: seq<(string, Value)>)
    requires DistinctKeys(xs) && DistinctKeys(ys)
    requires forall e :: e in xs <==> e in ys
    ensures MapOf(xs) == MapOf(ys)
    ensures forall doc :: ApplyOps(doc, OpsOf(xs)) == ApplyOps(doc, OpsOf(ys))
  {
    KeysIncluded(xs, ys);
    KeysIncluded(ys, xs);
    assert MapOf(xs).Keys == MapOf(ys).Keys;
    assert MapOf(xs) == MapOf(ys);
    forall doc
      ensures ApplyOps(doc, OpsOf(xs)) == ApplyOps(doc, OpsOf(ys))
    {
      OpsOverride(doc, xs);
      OpsOverride(doc, ys);
    }
  }

  lemma KeysIncluded(xs: seq<(string, Value)>, ys: seq<(string, Value)>)
    requires DistinctKeys(ys) && forall e :: e in xs ==> e in ys
    ensures forall k :: k in MapOf(xs) ==> k in MapOf(ys) && MapOf(xs)[k] == MapOf(ys)[k]
  {
    forall k | k in MapOf(xs)
      ensures k in MapOf(ys) && MapOf(xs)[k] == MapOf(ys)[k]
    {
      MapOfKey(xs, k);
      assert (k, MapOf(xs)[k]) in ys;
      var j :| 0 <= j < |ys| && ys[j] == (k, MapOf(xs)[k]);
      MapOfMember(ys, j);
    }
  }

  // ----- lifecycle events leave the document alone

  lemma OfferMirrors(sys: Sys, ev: AgEvent)
    requires !ev.StateSnapshot? && !ev.StateDelta?
    ensures Mirror(Offer(sys, ev).offered) == Mirror(sys.offered)
  {
    MirrorSnoc(sys.offered, ev);
  }

  lemma CloseTextMirrors(sys: Sys)
    ensures Mirror(CloseText(sys).offered) == Mirror(sys.offered)
  {
    hide Mirror;
    OfferMirrors(sys, TextEnd(sys.st.text));
  }

  lemma CloseReasoningMirrors(sys: Sys)
    ensures Mirror(CloseReasoning(sys).offered) == Mirror(sys.offered)
  {
    hide Mirror;
    OfferMirrors(sys, ReasoningMessageEnd(sys.st.thought));
    OfferMirrors(CloseThought(sys), ReasoningEnd(CloseThought(sys).st.phase));
  }

  lemma CloseStepMirrors(sys: Sys)
    ensures Mirror(CloseStep(sys).offered) == Mirror(sys.offered)
  {
    hide Mirror;
    OfferMirrors(sys, StepFinished(sys.st.step));
  }

  lemma FinalizeMirrors(sys: Sys)
    ensures Mirror(Finalize(sys).offered) == Mirror(sys.offered)
  {
    hide Mirror, CloseText, CloseReasoning, CloseStep;
    CloseTextMirrors(sys);
    CloseReasoningMirrors(CloseText(sys));
    CloseStepMirrors(CloseReasoning(CloseText(sys)));
  }

  lemma ChangeStepMirrors(appName: string, author: string, sys: Sys)
    ensures Mirror(ChangeStep(appName, author, sys).offered) == Mirror(sys.offered)
  {
    hide Mirror, CloseStep;
    CloseStepMirrors(sys);
    OfferMirrors(CloseStep(sys), StepStarted(author));
  }

  lemma ThoughtMirrors(cfg: Config, text: string, sys: Sys)
    ensures Mirror(Thought(cfg, text, sys).offered) == Mirror(sys.offered)
  {
    hide Mirror, CloseText;
    var closed := CloseText(sys.(st := sys.st.(emittedLen := |text|)));
    CloseTextMirrors(sys.(st := sys.st.(emittedLen := |text|)));
    OfferMirrors(closed, ReasoningStart(cfg.freshId(closed.st.nextId)));
    var phased := OpenPhase(cfg, closed);
    OfferMirrors(phased, ReasoningMessageStart(cfg.freshId(phased.st.nextId)));
    var open := OpenThought(cfg, phased);
    if |text| > sys.st.emittedLen {
      OfferMirrors(open, ReasoningContent(open.st.thought, text[sys.st.emittedLen..]));
    }
  }

  lemma TextMirrors(cfg: Config, partial: bool, text: string, sys: Sys)
    ensures Mirror(Text(cfg, partial, text, sys).offered) == Mirror(sys.offered)
  {
    hide Mirror, CloseReasoning;
    var closed := CloseReasoning(sys);
    CloseReasoningMirrors(sys);
    OfferMirrors(closed, TextStart(cfg.freshId(closed.st.nextId)));
    var open := OpenText(cfg, closed);
    OfferMirrors(open, TextContent(open.st.text, text));
  }

  lemma CallMirrors(cfg: Config, call: FunctionCall, sys: Sys)
    ensures Mirror(Call(cfg, call, sys).0.offered) == Mirror(sys.offered)
  {
    hide Mirror;
    var started := Offer(sys, ToolCallStart(call.id, call.name, ParentOf(sys.st)));
    OfferMirrors(sys, ToolCallStart(call.id, call.name, ParentOf(sys.st)));
    var args := cfg.marshal(call.args);
    if args.Some? {
      OfferMirrors(started, ToolCallArgs(call.id, args.value));
      OfferMirrors(Offer(started, ToolCallArgs(call.id, args.value)), ToolCallEnd(call.id));
    }
  }

  lemma CallPartMirrors(cfg: Config, stored: Option<Session>, call: FunctionCall, sys: Sys)
    requires !CallPart(cfg, stored, call, sys).1.Done?
    ensures Mirror(CallPart(cfg, stored, call, sys).0.offered) == Mirror(sys.offered)
  {
    hide Mirror, CloseReasoning, CloseText, Call, Finalize;
    CloseTextMirrors(sys);
    CloseReasoningMirrors(CloseText(sys));
    var closed := CloseReasoning(CloseText(sys));
    CallMirrors(cfg, call, closed);
    FinalizeMirrors(closed);
    var original := cfg.original(call);
    if original.Some? {
      CallMirrors(cfg, original.value, Finalize(closed));
    }
  }

  lemma {:induction false} NeutralAllMirrors(evs: seq<AgEvent>, sys: Sys)
    requires forall i :: 0 <= i < |evs| ==> Neutral(evs[i])
    ensures Mirror(OfferAll(sys, evs).offered) == Mirror(sys.offered)
    decreases |evs|
  {
    hide Mirror;
    if evs == [] {
      assert OfferAll(sys, evs) == sys;
    } else {
      OfferMirrors(sys, evs[0]);
      NeutralAllMirrors(evs[1..], Offer(sys, evs[0]));
      assert OfferAll(Offer(sys, evs[0]), evs[1..]).offered == OfferAll(sys, evs).offered;
    }
  }

  lemma OnePartMirrors(cfg: Config, stored: Option<Session>, ev: Event, part: Part, sys: Sys)
    requires NeutralConverter(cfg) && !OnePart(cfg, stored, ev, part, sys).1.Done?
    ensures Mirror(OnePart(cfg, stored, ev, part, sys).0.offered) == Mirror(sys.offered)
  {
    hide Mirror, Thought, Text, CallPart;
    if part.Part? {
      if cfg.converter.Some? && cfg.converter.value(ev, part).Handled? {
        NeutralAllMirrors(cfg.converter.value(ev, part).events, sys);
      } else if part.thought && part.text != "" {
        ThoughtMirrors(cfg, part.text, sys);
      } else if part.text != "" {
        TextMirrors(cfg, ev.partial, part.text, sys);
      } else if part.call.Some? {
        if !CallPart(cfg, stored, part.call.value, sys).1.Done? {
          CallPartMirrors(cfg, stored, part.call.value, sys);
        }
      } else if part.response.Some? {
        var json := cfg.marshal(part.response.value.response);
        if json.Some? {
          OfferMirrors(sys, ToolCallResult(cfg.freshId(sys.st.nextId), part.response.value.id, json.value));
        }
      }
    }
  }

  // ----- whole runs

  lemma {:induction false} PartsMirror(cfg: Config, stored: Option<Session>, ev: Event, i: nat, sys: Sys)
    requires i <= |PartsOf(ev)| && NeutralConverter(cfg)
    requires !RunParts(cfg, Quiet(), stored, ev, i, sys).1.Done?
    ensures Mirror(RunParts(cfg, Quiet(), stored, ev, i, sys).0.offered) == Mirror(sys.offered)
    decreases |PartsOf(ev)| - i
  {
    hide Mirror, OnePart, Send;
    QuietSends(sys.offered);
    if i < |PartsOf(ev)| {
      var (next, status) := OnePart(cfg, stored, ev, PartsOf(ev)[i], sys);
      OnePartMirrors(cfg, stored, ev, PartsOf(ev)[i], sys);
      if status.Continue? {
        PartsMirror(cfg, stored, ev, i + 1, next);
      }
    }
  }

  lemma EndingMirrors(ev: Event, sys: Sys)
    requires Mirror(sys.offered).Some?
    ensures Mirror(Ending(ev, sys).offered) == Some(Override(Mirror(sys.offered).value, MapOf(ev.delta)))
  {
    hide Mirror, Finalize, ApplyOps;
    var doc := Mirror(sys.offered).value;
    if ev.delta == [] {
      assert Override(doc, MapOf(ev.delta)) == doc;
    } else {
      MirrorSnoc(sys.offered, StateDelta(OpsOf(ev.delta)));
      OpsOverride(doc, ev.delta);
    }
    FinalizeMirrors(OfferDelta(ev.delta, sys));
  }

  /** A processed event applies its delta; a stopped one changes nothing. */
  lemma EventMirrors(cfg: Config, stored: Option<Session>, ev: Event, sys: Sys)
    requires NeutralConverter(cfg) && Mirror(sys.offered).Some?
    ensures var (next, status) := RunEvent(cfg, Quiet(), stored, ev, sys);
            && (status.Continue? ==>
                  Mirror(next.offered) == Some(Override(Mirror(sys.offered).value, MapOf(ev.delta))))
            && (status.Stop? ==> Mirror(next.offered) == Mirror(sys.offered))
  {
    hide Mirror, ChangeStep, RunParts, Ending, Send;
    ChangeStepMirrors(cfg.appName, ev.author, sys);
    var begun := ChangeStep(cfg.appName, ev.author, sys);
    var (mid, status) := RunParts(cfg, Quiet(), stored, ev, 0, begun);
    if !status.Done? {
      PartsMirror(cfg, stored, ev, 0, begun);
      if status.Continue? {
        EndingMirrors(ev, mid);
        QuietSends(Ending(ev, mid).offered);
      }
    }
  }

  lemma ErrorMirrors(fault: RunFault, sys: Sys)
    ensures Mirror(EmitError(fault, sys).offered) == Mirror(sys.offered)
  {
    hide Mirror, Finalize;
    FinalizeMirrors(sys);
    OfferMirrors(Finalize(sys), RunError(Finalize(sys).st.run.runId, fault));
  }

  /** State overridden by the deltas of the first n arrivals, in order. */
  function Applied(base: Fields, arrivals: seq<Arrival>, n: nat): Fields
    requires n <= |arrivals|
  {
    if n == 0 then base
    else
      var before := Applied(base, arrivals, n - 1);
      if arrivals[n - 1].item.Yielded? then Override(before, MapOf(arrivals[n - 1].item.event.delta)) else before
  }

  // ----- the interrupt boundary

  /** What the snapshot before an interrupt makes of a client's document: it replaces it by
      stored state overridden once more by the request's state, unless that is empty. */
  function AtBoundary(run: RunInfo, stored: Option<Session>, doc: Fields): Fields {
    if run.userId != "" && Snapshot(stored, run.reqState) != map[] then Snapshot(stored, run.reqState) else doc
  }

  predicate NoDelta(trace: seq<AgEvent>, k: nat) {
    forall j :: k <= j < |trace| ==> !trace[j].StateDelta?
  }

  /** From a state on, the document stays until event k and then only crosses the boundary. */
  ghost predicate Crosses(sys: Sys, next: Sys, stored: Option<Session>, k: nat) {
    && k <= |next.offered| && NoDelta(next.offered, k)
    && Mirror(sys.offered).Some? && Mirror(next.offered[..k]) == Mirror(sys.offered)
    && Mirror(next.offered) == Some(AtBoundary(sys.st.run, stored, Mirror(sys.offered).value))
  }

  lemma CrossesLater(sys: Sys, mid: Sys, next: Sys, stored: Option<Session>, k: nat)
    requires Mirror(mid.offered) == Mirror(sys.offered) && mid.st.run == sys.st.run && Crosses(mid, next, stored, k)
    ensures Crosses(sys, next, stored, k)
  {
  }

  lemma SnapshotsCross(cfg: Config, stored: Option<Session>, sys: Sys)
    requires Mirror(sys.offered).Some?
    ensures Crosses(sys, BoundarySnapshots(cfg, stored, sys), stored, |sys.offered|)
    ensures BoundarySnapshots(cfg, stored, sys).st == sys.st
  {
    hide Mirror, Snapshot, Visible;
    var run := sys.st.run;
    var state := Snapshot(stored, run.reqState);
    if stored.None? && run.reqState == map[] {
      NothingToShow(run.reqState);
    }
    MirrorSnoc(sys.offered, StateSnapshot(state));
    var shown := OfferState(state, sys);
    assert sys.offered[..|sys.offered|] == sys.offered;
    assert shown.offered[..|sys.offered|] == sys.offered;
    if run.userId != "" && stored.Some? {
      var messages := ConvertSession(HistoryConfig(cfg), stored.value.history);
      if messages.Some? && messages.value != [] {
        OfferMirrors(shown, MessagesSnapshot(messages.value));
        assert OfferMessages(messages, shown).offered[..|sys.offered|] == sys.offered;
      }
    }
  }

  lemma NothingToShow(reqState: Fields)
    requires reqState == map[]
    ensures Snapshot(None, reqState) == map[]
  {
  }

  lemma CrossesFurther(sys: Sys, next: Sys, last: Sys, stored: Option<Session>, k: nat)
    requires Crosses(sys, next, stored, k) && next.offered <= last.offered && NoDelta(last.offered, |next.offered|)
    requires Mirror(last.offered) == Mirror(next.offered)
    ensures Crosses(sys, last, stored, k)
  {
    assert last.offered[..k] == next.offered[..k];
    assert forall j :: 0 <= j < |next.offered| ==> last.offered[j] == next.offered[j];
  }

  lemma CallKeeps(cfg: Config, call: FunctionCall, sys: Sys)
    ensures Call(cfg, call, sys).0.st == sys.st
  {
  }

  lemma InterruptingCrosses(cfg: Config, stored: Option<Session>, call: FunctionCall, sys: Sys) returns (k: nat)
    requires Mirror(sys.offered).Some? && Interrupting(cfg, stored, call, sys).1.Done?
    ensures Crosses(sys, Interrupting(cfg, stored, call, sys).0, stored, k)
  {
    hide Mirror, Finalize, Call, BoundarySnapshots, Crosses;
    FinalizeMirrors(sys);
    FinalizeKeeps(sys);
    var original := cfg.original(call).value;
    CallMirrors(cfg, original, Finalize(sys));
    var proposed := Call(cfg, original, Finalize(sys)).0;
    CallKeeps(cfg, original, Finalize(sys));
    var shown := BoundarySnapshots(cfg, stored, proposed);
    SnapshotsCross(cfg, stored, proposed);
    k := |proposed.offered|;
    CrossesLater(sys, proposed, shown, stored, k);
    var interrupt := InterruptFor(cfg, call, original);
    OfferMirrors(shown, RunFinished(shown.st.run.threadId, shown.st.run.runId, Interrupted([interrupt])));
    CrossesFurther(sys, shown, FinishInterrupted(interrupt, shown), stored, k);
  }

  lemma OnePartCrosses(cfg: Config, stored: Option<Session>, ev: Event, part: Part, sys: Sys) returns (k: nat)
    requires Mirror(sys.offered).Some? && OnePart(cfg, stored, ev, part, sys).1.Done?
    ensures Crosses(sys, OnePart(cfg, stored, ev, part, sys).0, stored, k)
  {
    hide Mirror, Interrupting, CloseText, CloseReasoning, Crosses, Thought, Text;
    var closed := CloseReasoning(CloseText(sys));
    CloseTextMirrors(sys);
    CloseReasoningMirrors(CloseText(sys));
    assert closed.st.run == sys.st.run by {
      CloseKeepsRun(sys);
    }
    k := InterruptingCrosses(cfg, stored, part.call.value, closed);
    CrossesLater(sys, closed, Interrupting(cfg, stored, part.call.value, closed).0, stored, k);
  }

  lemma CloseKeepsRun(sys: Sys)
    ensures CloseReasoning(CloseText(sys)).st.run == sys.st.run
  {
  }

  lemma {:induction false} PartsCross(cfg: Config, stored: Option<Session>, ev: Event, i: nat, sys: Sys)
    returns (k: nat)
    requires i <= |PartsOf(ev)| && NeutralConverter(cfg) && Mirror(sys.offered).Some?
    requires RunParts(cfg, Quiet(), stored, ev, i, sys).1.Done?
    ensures Crosses(sys, RunParts(cfg, Quiet(), stored, ev, i, sys).0, stored, k)
    decreases |PartsOf(ev)| - i
  {
    hide Mirror, OnePart, Send, Crosses;
    QuietSends(sys.offered);
    var (next, status) := OnePart(cfg, stored, ev, PartsOf(ev)[i], sys);
    if status.Continue? {
      OnePartMirrors(cfg, stored, ev, PartsOf(ev)[i], sys);
      OnePartKeeps(cfg, stored, ev, PartsOf(ev)[i], sys);
      k := PartsCross(cfg, stored, ev, i + 1, next);
      CrossesLater(sys, next, RunParts(cfg, Quiet(), stored, ev, i, sys).0, stored, k);
    } else {
      k := OnePartCrosses(cfg, stored, ev, PartsOf(ev)[i], sys);
    }
  }

  lemma EventCrosses(cfg: Config, stored: Option<Session>, ev: Event, sys: Sys) returns (k: nat)
    requires NeutralConverter(cfg) && Mirror(sys.offered).Some? && RunEvent(cfg, Quiet(), stored, ev, sys).1.Done?
    ensures Crosses(sys, RunEvent(cfg, Quiet(), stored, ev, sys).0, stored, k)
  {
    hide Mirror, RunParts, Ending, Send, Crosses;
    ChangeStepMirrors(cfg.appName, ev.author, sys);
    var begun := ChangeStep(cfg.appName, ev.author, sys);
    k := PartsCross(cfg, stored, ev, 0, begun);
    CrossesLater(sys, begun, RunParts(cfg, Quiet(), stored, ev, 0, begun).0, stored, k);
  }

  // ----- the loop

  /** What the session lookup of the interrupt at arrival n finds. */
  function FoundAt(faults: Faults, b: Backend, key: SessionKey, arrivals: seq<Arrival>, n: nat): Option<Session>
    requires n < |arrivals|
  {
    LookupOption(Get(faults, Put(b, key, arrivals[n].session), key))
  }

  /** After the deltas of the first n arrivals the document is reached at event k; from
      there on it stays or, if arrival n interrupts, crosses the boundary. */
  ghost predicate Followed(w: World, run: RunInfo, arrivals: seq<Arrival>, n: nat, b: Backend, base: Fields,
          trace: seq<AgEvent>, k: nat)
    requires n <= |arrivals|
  {
    var doc := Applied(base, arrivals, n);
    && k <= |trace| && NoDelta(trace, k) && Mirror(trace[..k]) == Some(doc)
    && Mirror(trace) ==
       if n < |arrivals| && PausesAt(w.cfg, arrivals[n].item)
       then Some(AtBoundary(run, FoundAt(w.faults, b, KeyOf(run), arrivals, n), doc)) else Some(doc)
  }

  /** The whole document is the deltas so far, and nothing is left to cross. */
  lemma StaysThere(w: World, run: RunInfo, arrivals: seq<Arrival>, n: nat, b: Backend, base: Fields,
          trace: seq<AgEvent>)
    requires n <= |arrivals| && Mirror(trace) == Some(Applied(base, arrivals, n))
    requires n < |arrivals| ==> !PausesAt(w.cfg, arrivals[n].item)
    ensures Followed(w, run, arrivals, n, b, base, trace, |trace|)
  {
    assert trace[..|trace|] == trace;
  }

  lemma CrossingFollows(w: World, sys: Sys, next: Sys, arrivals: seq<Arrival>, n: nat, b: Backend, base: Fields, k: nat)
    requires n < |arrivals| && PausesAt(w.cfg, arrivals[n].item)
    requires Mirror(sys.offered) == Some(Applied(base, arrivals, n))
    requires Crosses(sys, next, FoundAt(w.faults, b, KeyOf(sys.st.run), arrivals, n), k)
    ensures Followed(w, sys.st.run, arrivals, n, b, base, next.offered, k)
  {
  }

  lemma FollowedEarlier(w: World, run: RunInfo, arrivals: seq<Arrival>, n: nat, b: Backend, s: Session, base: Fields,
          trace: seq<AgEvent>, k: nat)
    requires n <= |arrivals| && Followed(w, run, arrivals, n, Put(b, KeyOf(run), s), base, trace, k)
    ensures Followed(w, run, arrivals, n, b, base, trace, k)
  {
    hide Mirror, NoDelta, Applied, AtBoundary, PausesAt;
    if n < |arrivals| {
      PutTwice(b, KeyOf(run), s, arrivals[n].session);
    }
  }

  /** From arrival i on: the document is the deltas applied up to the arrival that ends the
      run, all of them if none does. */
  lemma {:induction false} LoopMirrors(w: World, agent: Agent, i: nat, sys: Sys, b: Backend,
          base: Fields) returns (k: nat)
    requires i <= |agent.arrivals| && w.net == Quiet() && NeutralConverter(w.cfg)
    requires Mirror(sys.offered) == Some(Applied(base, agent.arrivals, i))
    ensures Followed(w, sys.st.run, agent.arrivals, EndingArrival(w.cfg, agent.arrivals, i), b, base,
                     RunLoop(w, agent, i, sys, b).0.offered, k)
    decreases |agent.arrivals| - i
  {
    hide Mirror, RunEvent, EmitError, Followed, EndingPart, PartsOf, PausesIn;
    var arrivals, run, trace := agent.arrivals, sys.st.run, RunLoop(w, agent, i, sys, b).0.offered;
    k := |trace|;
    if i == |arrivals| {
      StaysThere(w, run, arrivals, i, b, base, trace);
    } else {
      var b' := Put(b, KeyOf(run), arrivals[i].session);
      match arrivals[i].item
      case Failure(message) =>
        ErrorMirrors(AgentFailed(message, ""), sys);
        StaysThere(w, run, arrivals, i, b, base, trace);
      case NilEvent =>
        k := LoopMirrors(w, agent, i + 1, sys, b', base);
        FollowedEarlier(w, run, arrivals, EndingArrival(w.cfg, arrivals, i), b, arrivals[i].session, base, trace, k);
      case Yielded(ev) =>
        if ev.errorMessage != "" {
          ErrorMirrors(AgentFailed(ev.errorMessage, ev.errorCode), sys);
          StaysThere(w, run, arrivals, i, b, base, trace);
        } else {
          var stored := LookupOption(Get(w.faults, b', KeyOf(run)));
          EventEnds(w.cfg, stored, ev, sys);
          EventMirrors(w.cfg, stored, ev, sys);
          EventKeeps(w.cfg, w.net, stored, ev, sys);
          var (next, status) := RunEvent(w.cfg, w.net, stored, ev, sys);
          match status
          case Stop(fault) =>
            ErrorMirrors(fault, next);
            StaysThere(w, run, arrivals, i, b, base, trace);
          case Done =>
            k := EventCrosses(w.cfg, stored, ev, sys);
            CrossingFollows(w, sys, next, arrivals, i, b, base, k);
          case Continue =>
            k := LoopMirrors(w, agent, i + 1, next, b', base);
            FollowedEarlier(w, run, arrivals, EndingArrival(w.cfg, arrivals, i), b, arrivals[i].session, base, trace,
                            k);
        }
    }
  }

  /** Closing what is open and finishing neither changes the document nor adds a delta. */
  lemma ConcludeMirrors(w: World, sys: Sys, b: Backend, error: Option<RunFault>, start: Option<Start>)
    ensures var last := Conclude(w, sys, b, error, start).sys;
            && Mirror(last.offered) == Mirror(sys.offered)
            && sys.offered <= last.offered && NoDelta(last.offered, |sys.offered|)
  {
    hide Mirror, Finalize;
    FinalizeMirrors(sys);
    FinalizeAddsNoDelta(sys);
    var closed := Finalize(sys);
    OfferMirrors(closed, RunFinished(closed.st.run.threadId, closed.st.run.runId, Success));
  }

  lemma FinalizeAddsNoDelta(sys: Sys)
    ensures sys.offered <= Finalize(sys).offered && NoDelta(Finalize(sys).offered, |sys.offered|)
  {
    assert sys.offered <= CloseText(sys).offered && NoDelta(CloseText(sys).offered, |sys.offered|);
    var closed := CloseReasoning(CloseText(sys));
    assert sys.offered <= closed.offered && NoDelta(closed.offered, |sys.offered|);
  }

  // ----- whole requests

  lemma VisibleOverride(a: Fields, b: Fields)
    ensures Visible(Override(a, b)) == Override(Visible(a), Visible(b))
  {
  }

  lemma {:induction false} VisibleApplied(base: Fields, other: Fields, arrivals: seq<Arrival>, n: nat)
    requires n <= |arrivals| && Visible(base) == Visible(other)
    ensures Visible(Applied(base, arrivals, n)) == Visible(Applied(other, arrivals, n))
  {
    if n > 0 {
      VisibleApplied(base, other, arrivals, n - 1);
      if arrivals[n - 1].item.Yielded? {
        var delta := MapOf(arrivals[n - 1].item.event.delta);
        VisibleOverride(Applied(base, arrivals, n - 1), delta);
        VisibleOverride(Applied(other, arrivals, n - 1), delta);
      }
    }
  }

  /** The state that a request's snapshot is built from. */
  function StoredState(session: Option<Session>): Fields {
    if session.Some? then session.value.state else map[]
  }

  /** Session state overridden by the request's state and then by the deltas of the first n
      arrivals, on every key that is not the launcher's. */
  function Expected(session: Option<Session>, req: Request, agent: Agent, n: nat): Fields
    requires n <= |agent.arrivals|
  {
    Visible(Applied(Override(StoredState(session), StateOf(req)), agent.arrivals, n))
  }

  lemma FollowedFurther(w: World, run: RunInfo, arrivals: seq<Arrival>, n: nat, b: Backend, base: Fields,
          trace: seq<AgEvent>, longer: seq<AgEvent>, k: nat)
    requires n <= |arrivals| && Followed(w, run, arrivals, n, b, base, trace, k)
    requires trace <= longer && NoDelta(longer, |trace|) && Mirror(longer) == Mirror(trace)
    ensures Followed(w, run, arrivals, n, b, base, longer, k)
  {
    hide Applied, AtBoundary, PausesAt, FoundAt;
    assert longer[..k] == trace[..k];
    assert forall j :: 0 <= j < |trace| ==> longer[j] == trace[j];
  }

  /** Launch, from a still empty document. `k` is the event at which the document is the
      state up to the arrival that ends the run. */
  lemma LaunchMirrors(w: World, req: Request, agent: Agent, session: Option<Session>, sys: Sys,
          b: Backend) returns (k: nat)
    requires w.net == Quiet() && NeutralConverter(w.cfg) && TurnOf(req).Ok?
    requires Mirror(sys.offered) == Some(map[]) && sys.st.run.reqState == StateOf(req)
    ensures var trace := Launch(w, req, agent, session, sys, b).sys.offered;
            var n, base := Survived(w.cfg, agent), Snapshot(session, StateOf(req));
            if agent.startError.Some? then k == |trace| && Mirror(trace) == Some(base)
            else Followed(w, sys.st.run, agent.arrivals, n, b, base, trace, k)
  {
    hide Mirror, EmitError, RunLoop, Conclude, Snapshot, Followed, EndingArrival;
    var base := Snapshot(session, StateOf(req));
    var ready := OfferState(base, sys);
    MirrorSnoc(sys.offered, StateSnapshot(base));
    assert Mirror(ready.offered) == Some(base) == Some(Applied(base, agent.arrivals, 0));
    if agent.startError.Some? {
      ErrorMirrors(AgentFailed(agent.startError.value, ""), ready);
      k := |Launch(w, req, agent, session, sys, b).sys.offered|;
    } else {
      var (last, b', error) := RunLoop(w, agent, 0, ready, b);
      var start := Some(Start(sys.st.run.userId, sys.st.run.threadId, TurnOf(req).value, StateOf(req)));
      k := LoopMirrors(w, agent, 0, ready, b, base);
      ConcludeMirrors(w, last, b', error, start);
      FollowedFurther(w, sys.st.run, agent.arrivals, Survived(w.cfg, agent), b, base, last.offered,
                      Conclude(w, last, b', error, start).sys.offered, k);
    }
  }

  /** Replica agreement, for every request that starts the agent. At event k the client
      holds what it is expected to hold after the arrivals before the one that ended the
      run, all of them on success; no delta follows. Without an interrupt that is its final
      document; with one, the boundary snapshot comes last. */
  lemma ReplicaAgrees(w: World, run: RunInfo, userId: string, req: Request, agent: Agent, b: Backend) returns (k: nat)
    requires w.net == Quiet() && NeutralConverter(w.cfg)
    requires Handle(w, run, userId, req, agent, b).start.Some?
    ensures var o := Handle(w, run, userId, req, agent, b);
            var trace, n := o.sys.offered, Survived(w.cfg, agent);
            var (b', session) := Prepared(w, run, userId, req, b);
            && session.Some? && k <= |trace| && NoDelta(trace, k)
            && Mirror(trace[..k]).Some? && Visible(Mirror(trace[..k]).value) == Expected(session.value, req, agent, n)
            && (o.sys.st.interrupts != [] <==> Paused(w.cfg, agent))
            && (o.sys.st.interrupts == [] ==> Mirror(trace) == Mirror(trace[..k]))
            && (o.sys.st.interrupts == [] && o.error.None? ==> n == |agent.arrivals|)
            && (o.sys.st.interrupts != [] ==>
                  var found := FoundAt(w.faults, b', SessionKey(userId, run.threadId), agent.arrivals, n);
                  Mirror(trace) == Some(AtBoundary(Admitted(run, userId, req).st.run, found, Mirror(trace[..k]).value)))
  {
    hide Handle, Mirror, Launch, Ensured, Visible, Applied, Snapshot, EndingArrival, AtBoundary, FoundAt;
    StartedIsLaunched(w, run, userId, req, agent, b);
    RequestEnds(w, run, userId, req, agent, b);
    var (b', session) := Prepared(w, run, userId, req, b);
    var sys := Admitted(run, userId, req);
    EmptyMirror();
    OfferMirrors(Sys(Initial(run), []), RunStarted(run.threadId, run.runId));
    k := LaunchMirrors(w, req, agent, session.value, sys, b');
    var trace := Handle(w, run, userId, req, agent, b).sys.offered;
    assert trace[..|trace|] == trace;
    SnapshotIsExpected(session.value, req, agent, Survived(w.cfg, agent));
  }

  lemma SnapshotIsExpected(session: Option<Session>, req: Request, agent: Agent, n: nat)
    requires n <= |agent.arrivals|
    ensures Visible(Applied(Snapshot(session, StateOf(req)), agent.arrivals, n)) == Expected(session, req, agent, n)
    ensures Applied(Snapshot(session, StateOf(req)), agent.arrivals, 0) == Snapshot(session, StateOf(req))
  {
    VisibleOverride(StoredState(session), StateOf(req));
    VisibleApplied(Snapshot(session, StateOf(req)), Override(StoredState(session), StateOf(req)), agent.arrivals, n);
  }

  lemma EmptyMirror()
    ensures Mirror([]) == Some(map[])
  {
  }

  // ----- how good the boundary snapshot is

  /** That snapshot shows the stored state exactly when no key of the request's state has
      been given another value since. */
  lemma BoundaryIsFresh(stored: Session, reqState: Fields)
    ensures Snapshot(Some(stored), reqState) == Visible(stored.state) <==>
            forall k :: k in reqState && !IsInternalKey(k) ==> k in stored.state && stored.state[k] == reqState[k]
  {
    var shown, kept := Snapshot(Some(stored), reqState), Visible(stored.state);
    if shown == kept {
      forall k | k in reqState && !IsInternalKey(k)
        ensures k in stored.state && stored.state[k] == reqState[k]
      {
        assert k in shown && shown[k] == reqState[k];
        assert k in kept;
      }
    }
  }

  /** A value the agent changed during the run is shown to the client as the request had it. */
  lemma BoundaryCanBeStale()
    ensures var stored := Session(map["step" := Str("two")], []);
            Snapshot(Some(stored), map["step" := Str("one")]) == map["step" := Str("one")] != stored.state
  {
    var stored := Session(map["step" := Str("two")], []);
    assert Snapshot(Some(stored), map["step" := Str("one")])["step"] == Str("one");
    assert stored.state["step"] == Str("two");
  }
}
