/** What a failing write or interceptor changes in a run, and what it does not. */
module Disconnects {
  import opened Values
  import opened Adk
  import opened Protocol
  import opened Launcher
  import opened Emission
  import opened Sessions
  import opened StreamSpec
  import opened RunSpec
  import opened Halting
  import opened Outcomes
  import opened Transcript
  import opened Requests
  import opened Simulation

  // ----- either nothing changes or the failure is noticed

  lemma {:induction false} PartsSameOrFail(cfg: Config, net: Net, stored: Option<Session>, ev: Event, i: nat, sys: Sys)
    requires i <= |PartsOf(ev)|
    ensures var (next, status) := RunParts(cfg, net, stored, ev, i, sys);
            || RunParts(cfg, Quiet(), stored, ev, i, sys) == (next, status)
            || (status == Stop(WriteFailed) && Fails(net, next.offered))
    decreases |PartsOf(ev)| - i
  {
    hide OnePart, Send;
    QuietSends(sys.offered);
    if i < |PartsOf(ev)| && !Fails(net, sys.offered) {
      var (next, status) := OnePart(cfg, stored, ev, PartsOf(ev)[i], sys);
      if status.Continue? {
        PartsSameOrFail(cfg, net, stored, ev, i + 1, next);
      }
    }
  }

  lemma EventSameOrFails(cfg: Config, net: Net, stored: Option<Session>, ev: Event, sys: Sys)
    ensures var (next, status) := RunEvent(cfg, net, stored, ev, sys);
            || RunEvent(cfg, Quiet(), stored, ev, sys) == (next, status)
            || (status == Stop(WriteFailed) && Fails(net, next.offered))
    ensures var (next, status) := RunEvent(cfg, net, stored, ev, sys);
            status.Continue? ==> !Fails(net, next.offered)
  {
    hide RunParts, Ending, ChangeStep, Send;
    var begun := ChangeStep(cfg.appName, ev.author, sys);
    PartsSameOrFail(cfg, net, stored, ev, 0, begun);
    QuietSends(Ending(ev, RunParts(cfg, Quiet(), stored, ev, 0, begun).0).offered);
  }

  lemma StillFails(net: Net, a: seq<AgEvent>, b: seq<AgEvent>)
    requires Fails(net, a) && a <= b
    ensures Fails(net, b)
  {
    hide Send;
    FailureAbsorbs(net, a, b[|a|..]);
    assert a + b[|a|..] == b;
  }

  lemma {:induction false} LoopSameOrFails(w: World, agent: Agent, i: nat, sys: Sys, b: Backend)
    requires i <= |agent.arrivals|
    ensures var (next, left, error) := RunLoop(w, agent, i, sys, b);
            || RunLoop(Silent(w), agent, i, sys, b) == (next, left, error)
            || (error == Some(WriteFailed) && Fails(w.net, next.offered))
    decreases |agent.arrivals| - i
  {
    hide RunEvent, EmitError, Send;
    if i < |agent.arrivals| && !agent.arrivals[i].item.Failure? {
      var b' := Put(b, KeyOf(sys.st.run), agent.arrivals[i].session);
      if agent.arrivals[i].item.NilEvent? {
        LoopSameOrFails(w, agent, i + 1, sys, b');
      } else if agent.arrivals[i].item.event.errorMessage == "" {
        var ev, stored := agent.arrivals[i].item.event, LookupOption(Get(w.faults, b', KeyOf(sys.st.run)));
        EventSameOrFails(w.cfg, w.net, stored, ev, sys);
        var (next, status) := RunEvent(w.cfg, w.net, stored, ev, sys);
        if status.Continue? {
          LoopSameOrFails(w, agent, i + 1, next, b');
        } else if status.Stop? {
          ErrorGrows(status.fault, next);
          if Fails(w.net, next.offered) {
            StillFails(w.net, next.offered, EmitError(status.fault, next).offered);
          }
        }
      }
    }
  }

  lemma LaunchSameOrFails(w: World, req: Request, agent: Agent, session: Option<Session>, sys: Sys, b: Backend)
    requires sys.st.interrupts == []
    ensures var o := Launch(w, req, agent, session, sys, b);
            || Launch(Silent(w), req, agent, session, sys, b) == o
            || (o.error == Some(WriteFailed) && Fails(w.net, o.sys.offered))
  {
    hide EmitError, RunLoop, Send, Finalize, Persist, EndingArrival, PausesAt;
    if TurnOf(req).Ok? && agent.startError.None? {
      var ready := OfferState(Snapshot(session, StateOf(req)), sys);
      LoopSameOrFails(w, agent, 0, ready, b);
      LoopKeepsRun(w, agent, 0, ready, b);
      var (last, b', error) := RunLoop(w, agent, 0, ready, b);
      var start := Some(Start(sys.st.run.userId, sys.st.run.threadId, TurnOf(req).value, StateOf(req)));
      ConcludeGrows(w, last, b', error, start);
      FinalizeKeeps(last);
      if Fails(w.net, last.offered) {
        StillFails(w.net, last.offered, Conclude(w, last, b', error, start).sys.offered);
      }
    }
  }

  /** With any interceptors and any failing write a request either goes exactly as with a
      client that stays, what it offers, stores, starts and returns, or it returns a write
      error, and then a write or an interceptor did fail. */
  lemma SameOrNoticed(w: World, run: RunInfo, userId: string, req: Request, agent: Agent, b: Backend)
    ensures var o := Handle(w, run, userId, req, agent, b);
            || Handle(Silent(w), run, userId, req, agent, b) == o
            || (o.error == Some(WriteFailed) && Fails(w.net, o.sys.offered))
  {
    hide Launch, EmitError, Ensured, PendingOf, Send;
    var sys := Offer(Sys(Initial(run), []), RunStarted(run.threadId, run.runId));
    QuietSends(sys.offered);
    var (b', session) := Prepared(w, run, userId, req, b);
    if session.Some? {
      LaunchSameOrFails(w, req, agent, session.value, Admitted(run, userId, req), b');
    }
  }

  // ----- what has been written when no failure is noticed

  /** Everything shown before a point of the stream has been written there. */
  ghost predicate Written(net: Net, trace: seq<AgEvent>, k: nat, lines: seq<Line>) {
    k <= |trace| && !Fails(net, trace[..k]) && Read(trace[..k]).lines == lines
  }

  lemma WrittenNow(cfg: Config, net: Net, sys: Sys, place: Place, lines: seq<Line>, trace: seq<AgEvent>)
    requires Stands(cfg, sys, place, lines) && !Fails(net, sys.offered) && sys.offered <= trace
    ensures Written(net, trace, |sys.offered|, lines)
  {
    hide Read, Send;
    assert trace[..|sys.offered|] == sys.offered;
  }

  lemma WrittenFurther(net: Net, trace: seq<AgEvent>, longer: seq<AgEvent>, k: nat, lines: seq<Line>)
    requires Written(net, trace, k, lines) && trace <= longer
    ensures Written(net, longer, k, lines)
  {
    hide Read, Send;
    assert longer[..k] == trace[..k];
  }

  /** A part is translated only on a healthy emitter: when the part that ends the run is, all
      that was shown before it has been written. */
  lemma {:induction false} PartsWritten(cfg: Config, net: Net, stored: Option<Session>, ev: Event, i: nat, sys: Sys,
          place: Place, lines: seq<Line>) returns (k: nat)
    requires NeutralConverter(cfg) && i <= |PartsOf(ev)| && i <= EndingPart(cfg, ev, i) == EndingPart(cfg, ev, 0)
    requires EndingPart(cfg, ev, 0) < |PartsOf(ev)|
    requires Stands(cfg, sys, place.(emitted := EmittedUpTo(cfg, ev, i, place.emitted)),
                    lines + In(place.step, PartsShown(cfg, ev, i, place.emitted)))
    requires RunParts(cfg, net, stored, ev, i, sys).1 != Stop(WriteFailed)
    ensures Written(net, RunParts(cfg, net, stored, ev, i, sys).0.offered, k,
                    lines + In(place.step, PartsShown(cfg, ev, EndingPart(cfg, ev, 0), place.emitted)))
    decreases |PartsOf(ev)| - i
  {
    hide Stands, Written, OnePart, Send, EndsRun, PartShown, EmittedBy, Fails;
    var p, emitted := PartsOf(ev)[i], EmittedUpTo(cfg, ev, i, place.emitted);
    var before := PartsShown(cfg, ev, i, place.emitted);
    if EndsRun(cfg, ev, p) {
      k := |sys.offered|;
      PartsGrow(cfg, net, stored, ev, i, sys);
      WrittenNow(cfg, net, sys, place.(emitted := emitted), lines + In(place.step, before),
                 RunParts(cfg, net, stored, ev, i, sys).0.offered);
    } else {
      PartStands(cfg, stored, ev, p, sys, place.(emitted := emitted), lines + In(place.step, before));
      NextShown(cfg, ev, i, place, lines);
      k := PartsWritten(cfg, net, stored, ev, i + 1, OnePart(cfg, stored, ev, p, sys).0, place, lines);
    }
  }

  lemma EventWritten(cfg: Config, net: Net, stored: Option<Session>, ev: Event, sys: Sys, place: Place,
          lines: seq<Line>) returns (k: nat)
    requires NeutralConverter(cfg) && Stands(cfg, sys, place, lines) && EndingPart(cfg, ev, 0) < |PartsOf(ev)|
    requires RunEvent(cfg, net, stored, ev, sys).1 != Stop(WriteFailed)
    ensures Written(net, RunEvent(cfg, net, stored, ev, sys).0.offered, k,
                    lines + In(StepFor(cfg.appName, ev.author, place.step),
                               PartsShown(cfg, ev, EndingPart(cfg, ev, 0), place.emitted)))
  {
    hide Stands, Written, RunParts, Ending, ChangeStep, Fails, EndingPart, StepFor, PartsShown, EmittedUpTo, In;
    var begun, there := ChangeStep(cfg.appName, ev.author, sys),
        place.(step := StepFor(cfg.appName, ev.author, place.step));
    ChangeStepStands(cfg, ev.author, sys, place, lines);
    NothingShownBefore(cfg, ev, there);
    assert lines + [] == lines;
    k := PartsWritten(cfg, net, stored, ev, 0, begun, there, lines);
    var mid := RunParts(cfg, net, stored, ev, 0, begun).0;
    EndingGrows(ev, mid);
    WrittenFurther(net, mid.offered, RunEvent(cfg, net, stored, ev, sys).0.offered, k,
                   lines + In(there.step, PartsShown(cfg, ev, EndingPart(cfg, ev, 0), place.emitted)));
  }

  /** The launcher translates an event of these arrivals. */
  predicate Translates(arrivals: seq<Arrival>, i: nat, n: nat) {
    exists j :: i <= j <= n && j < |arrivals| && Translated(arrivals[j].item)
  }

  predicate Translated(item: Item) {
    item.Yielded? && item.event.errorMessage == ""
  }

  /** What a run shows before its last part, or its end. */
  function BeforeEnd(cfg: Config, arrivals: seq<Arrival>): seq<Line> {
    var n := EndingArrival(cfg, arrivals, 0);
    LinesUpTo(cfg, arrivals, n) +
    if n < |arrivals| && Translated(arrivals[n].item) then
      var ev, place := arrivals[n].item.event, PlaceAt(cfg, arrivals, n);
      In(StepFor(cfg.appName, ev.author, place.step), PartsShown(cfg, ev, EndingPart(cfg, ev, 0), place.emitted))
    else []
  }

  lemma BeforeEndJoins(cfg: Config, arrivals: seq<Arrival>, lines: seq<Line>)
    ensures var n := EndingArrival(cfg, arrivals, 0);
            && (n < |arrivals| && Translated(arrivals[n].item) ==>
                  var ev, place := arrivals[n].item.event, PlaceAt(cfg, arrivals, n);
                  lines + LinesUpTo(cfg, arrivals, n) +
                  In(StepFor(cfg.appName, ev.author, place.step),
                     PartsShown(cfg, ev, EndingPart(cfg, ev, 0), place.emitted))
                  == lines + BeforeEnd(cfg, arrivals))
            && (n == |arrivals| || !Translated(arrivals[n].item) ==>
                  lines + LinesUpTo(cfg, arrivals, n) == lines + BeforeEnd(cfg, arrivals))
  {
    hide LinesUpTo, PlaceAt, StepFor, PartsShown, EndingArrival, EndingPart;
  }

  lemma {:induction false} LoopWritten(w: World, agent: Agent, i: nat, sys: Sys, b: Backend, lines: seq<Line>,
          seen: bool) returns (k: nat)
    requires NeutralConverter(w.cfg) && i <= |agent.arrivals|
    requires i <= EndingArrival(w.cfg, agent.arrivals, i) == EndingArrival(w.cfg, agent.arrivals, 0)
    requires Stands(w.cfg, sys, PlaceAt(w.cfg, agent.arrivals, i), lines + LinesUpTo(w.cfg, agent.arrivals, i))
    requires RunLoop(w, agent, i, sys, b).2 != Some(WriteFailed)
    requires seen ==> !Fails(w.net, sys.offered)
    requires seen || Translates(agent.arrivals, i, EndingArrival(w.cfg, agent.arrivals, 0))
    ensures Written(w.net, RunLoop(w, agent, i, sys, b).0.offered, k, lines + BeforeEnd(w.cfg, agent.arrivals))
    decreases |agent.arrivals| - i
  {
    hide Stands, Written, Read, RunEvent, EmitError, EndsAt, EventShown, PlaceAfter, StepFor, BeforeEnd, LinesUpTo;
    hide Fails, PlaceAt, In, PartsShown;
    var arrivals, run := agent.arrivals, sys.st.run;
    var place, before := PlaceAt(w.cfg, arrivals, i), lines + LinesUpTo(w.cfg, arrivals, i);
    BeforeEndJoins(w.cfg, arrivals, lines);
    LoopGrows(w, agent, i, sys, b);
    if i == |arrivals| || (EndsAt(w.cfg, arrivals[i].item) && !Translated(arrivals[i].item)) {
      k := |sys.offered|;
      WrittenNow(w.cfg, w.net, sys, place, before, RunLoop(w, agent, i, sys, b).0.offered);
    } else {
      var b' := Put(b, KeyOf(run), arrivals[i].session);
      if arrivals[i].item.NilEvent? {
        LinesStep(w.cfg, arrivals, i, lines);
        k := LoopWritten(w, agent, i + 1, sys, b', lines, seen);
      } else {
        EndsOrNot(w.cfg, arrivals[i].item);
        var ev := arrivals[i].item.event;
        var stored := LookupOption(Get(w.faults, b', KeyOf(run)));
        var (next, status) := RunEvent(w.cfg, w.net, stored, ev, sys);
        EventSameOrFails(w.cfg, w.net, stored, ev, sys);
        EventShows(w.cfg, stored, ev, sys, place, before);
        AfterEventGrows(w, agent, i, sys, b, ev, next, status);
        if EndsAt(w.cfg, arrivals[i].item) {
          k := EventWritten(w.cfg, w.net, stored, ev, sys, place, before);
          WrittenFurther(w.net, next.offered, RunLoop(w, agent, i, sys, b).0.offered, k,
                         lines + BeforeEnd(w.cfg, arrivals));
        } else {
          LinesStep(w.cfg, arrivals, i, lines);
          k := LoopWritten(w, agent, i + 1, next, b', lines, true);
        }
      }
    }
  }

  lemma EndsOrNot(cfg: Config, item: Item)
    ensures item.Failure? ==> EndsAt(cfg, item)
    ensures item.Yielded? && item.event.errorMessage == "" ==>
              (EndsAt(cfg, item) <==> EndingPart(cfg, item.event, 0) < |PartsOf(item.event)|)
    ensures item.Yielded? && item.event.errorMessage != "" ==> EndsAt(cfg, item)
  {
  }

  lemma LaunchWritten(w: World, req: Request, agent: Agent, session: Option<Session>, sys: Sys, b: Backend,
          lines: seq<Line>) returns (k: nat)
    requires NeutralConverter(w.cfg) && TurnOf(req).Ok? && agent.startError.None? && sys.st.interrupts == []
    requires Stands(w.cfg, OfferState(Snapshot(session, StateOf(req)), sys), Place("", 0), lines)
    requires Translates(agent.arrivals, 0, Survived(w.cfg, agent))
    requires Launch(w, req, agent, session, sys, b).error != Some(WriteFailed)
    ensures Written(w.net, Launch(w, req, agent, session, sys, b).sys.offered, k,
                    lines + BeforeEnd(w.cfg, agent.arrivals))
  {
    hide Stands, Read, Written, EmitError, RunLoop, Snapshot, EndsAt, Finalize, Persist, Fails, TurnOf, StateOf;
    hide BeforeEnd, LinesUpTo, PlaceAt, PausesAt;
    var ready := OfferState(Snapshot(session, StateOf(req)), sys);
    NothingShownYet(w.cfg, agent.arrivals, lines);
    LoopKeepsRun(w, agent, 0, ready, b);
    var (last, b', error) := RunLoop(w, agent, 0, ready, b);
    FinalizeKeeps(last);
    k := LoopWritten(w, agent, 0, ready, b, lines, false);
    var start := Some(Start(sys.st.run.userId, sys.st.run.threadId, TurnOf(req).value, StateOf(req)));
    ConcludeGrows(w, last, b', error, start);
    WrittenFurther(w.net, last.offered, Conclude(w, last, b', error, start).sys.offered, k,
                   lines + BeforeEnd(w.cfg, agent.arrivals));
  }

  /** A write error that is not noticed can only have lost the end of the stream: if a request
      that translates an event does not return a write error, then everything it shows before
      the part that ends the run, or before the run's end, has been written. In particular an
      interrupt is recorded only if all that was shown before its call has been written. */
  lemma UnnoticedIsWritten(w: World, run: RunInfo, userId: string, req: Request, agent: Agent, b: Backend)
    returns (k: nat)
    requires NeutralConverter(w.cfg) && agent.startError.None?
    requires Handle(w, run, userId, req, agent, b).start.Some?
    requires Translates(agent.arrivals, 0, Survived(w.cfg, agent))
    requires Handle(w, run, userId, req, agent, b).error != Some(WriteFailed)
    ensures var key, given := SessionKey(userId, run.threadId), Given(req.state);
            Written(w.net, Handle(w, run, userId, req, agent, b).sys.offered, k,
                    [Line("", RunStarted(run.threadId, run.runId))] +
                    In("", StateShown(Merged(StateBefore(w, b, key), given))) +
                    BeforeEnd(w.cfg, agent.arrivals))
  {
    hide Handle, Launch, Prepared, Read, Stands, Written, Snapshot, Merged, BeforeEnd, StateShown, TurnOf, EndsAt, In;
    var key, given := SessionKey(userId, run.threadId), Given(req.state);
    StartedIsLaunched(w, run, userId, req, agent, b);
    ReadyIsPrepared(w, run, userId, req, b);
    var (b', session) := Prepared(w, run, userId, req, b);
    StartStands(w, run, userId, req, session.value);
    SameMerged(session.value, StateBefore(w, b, key), given);
    OneIn(RunStarted(run.threadId, run.runId));
    k := LaunchWritten(w, req, agent, session.value, Admitted(run, userId, req), b',
                       In("", [RunStarted(run.threadId, run.runId)]) +
                       In("", StateShown(Merged(StateBefore(w, b, key), given))));
  }
}
