/** At the end of every model turn of a run everything its client has open is closed. */
module TurnEnds {
  import opened Values
  import opened Adk
  import opened Protocol
  import opened Launcher
  import opened Emission
  import opened Sessions
  import opened Grammar
  import opened StreamSpec
  import opened RunSpec
  import opened RunGrammar
  import opened Halting
  import opened Outcomes
  import opened Transcript
  import opened Requests
  import Simulation

  /** A point of a stream at which no message, phase, step or tool call is open. */
  predicate AllClosed(trace: seq<AgEvent>) {
    && Follow(trace).Some? && Follow(trace).value.Open? && Follow(trace).value.tool.NoCall?
    && NothingOpen(Follow(trace).value)
  }

  /** Arrival n completes a turn. */
  predicate Completes(arrivals: seq<Arrival>, n: nat) {
    n < |arrivals| && arrivals[n].item.Yielded? && arrivals[n].item.event.turnComplete
  }

  /** The stream after arrival n, from a point where the first i arrivals are shown. */
  lemma {:induction false} LoopClosesTurn(w: World, agent: Agent, i: nat, n: nat, sys: Sys, b: Backend,
          lines: seq<Line>) returns (k: nat)
    requires w.net == Quiet() && FreshIds(w.cfg) && NeutralConverter(w.cfg) && i <= |agent.arrivals|
    requires i <= n < EndingArrival(w.cfg, agent.arrivals, i) == EndingArrival(w.cfg, agent.arrivals, 0)
    requires Completes(agent.arrivals, n) && Good(w.cfg, sys)
    requires Stands(w.cfg, sys, PlaceAt(w.cfg, agent.arrivals, i), lines + LinesUpTo(w.cfg, agent.arrivals, i))
    ensures var trace := RunLoop(w, agent, i, sys, b).0.offered;
            && k <= |trace| && AllClosed(trace[..k])
            && Read(trace[..k]).lines == lines + LinesUpTo(w.cfg, agent.arrivals, n + 1)
    decreases |agent.arrivals| - i
  {
    hide Good, Stands, Read, Follow, RunEvent, EmitError, EndsAt, LinesUpTo, PlaceAt, PlaceAfter, EventShown, StepFor;
    hide AllClosed;
    var arrivals, run := agent.arrivals, sys.st.run;
    var b' := Put(b, KeyOf(run), arrivals[i].session);
    LinesStep(w.cfg, arrivals, i, lines);
    GoesOn(w.cfg, arrivals[i].item);
    if arrivals[i].item.NilEvent? {
      k := LoopClosesTurn(w, agent, i + 1, n, sys, b', lines);
    } else {
      var ev, place := arrivals[i].item.event, PlaceAt(w.cfg, arrivals, i);
      var stored := LookupOption(Get(w.faults, b', KeyOf(run)));
      EventShows(w.cfg, stored, ev, sys, place, lines + LinesUpTo(w.cfg, arrivals, i));
      EventTracks(w.cfg, stored, ev, sys);
      var (next, status) := RunEvent(w.cfg, w.net, stored, ev, sys);
      if i == n {
        k := |next.offered|;
        TurnEndCloses(w.cfg, stored, ev, sys);
        Simulation.AfterEventGrows(w, agent, i, sys, b, ev, next, status);
        assert RunLoop(w, agent, i, sys, b).0.offered[..k] == next.offered;
        assert AllClosed(next.offered) by {
          ClosedNow(next.offered);
        }
        StandsTells(w.cfg, next, PlaceAt(w.cfg, arrivals, n + 1), lines + LinesUpTo(w.cfg, arrivals, n + 1));
      } else {
        k := LoopClosesTurn(w, agent, i + 1, n, next, b', lines);
      }
    }
  }

  lemma ClosedNow(trace: seq<AgEvent>)
    requires Follow(trace).Some? && Follow(trace).value.Open? && Follow(trace).value.tool.NoCall?
    requires NothingOpen(Follow(trace).value)
    ensures AllClosed(trace)
  {
  }

  lemma LaunchClosesTurn(w: World, req: Request, agent: Agent, n: nat, session: Option<Session>, sys: Sys, b: Backend,
          lines: seq<Line>) returns (k: nat)
    requires w.net == Quiet() && FreshIds(w.cfg) && NeutralConverter(w.cfg) && TurnOf(req).Ok?
    requires agent.startError.None? && n < Survived(w.cfg, agent) && Completes(agent.arrivals, n)
    requires var ready := OfferState(Snapshot(session, StateOf(req)), sys);
             Good(w.cfg, ready) && Stands(w.cfg, ready, Place("", 0), lines)
    ensures var trace := Launch(w, req, agent, session, sys, b).sys.offered;
            && k <= |trace| && AllClosed(trace[..k])
            && Read(trace[..k]).lines == lines + LinesUpTo(w.cfg, agent.arrivals, n + 1)
  {
    hide Good, Stands, Read, AllClosed, RunLoop, Conclude, Snapshot, EndsAt, LinesUpTo, PlaceAt, TurnOf, StateOf;
    var ready := OfferState(Snapshot(session, StateOf(req)), sys);
    NothingShownYet(w.cfg, agent.arrivals, lines);
    k := LoopClosesTurn(w, agent, 0, n, ready, b, lines);
    var (last, b', error) := RunLoop(w, agent, 0, ready, b);
    var start := Some(Start(sys.st.run.userId, sys.st.run.threadId, TurnOf(req).value, StateOf(req)));
    Simulation.ConcludeGrows(w, last, b', error, start);
    assert Conclude(w, last, b', error, start).sys.offered[..k] == last.offered[..k];
  }

  /** In every run, however it ends: when an arrival that completes a turn has been shown, and
      nothing after it, no text message, reasoning phase, step or tool call is open. */
  lemma RunClosesTurns(w: World, run: RunInfo, userId: string, req: Request, agent: Agent, b: Backend, n: nat)
    returns (k: nat)
    requires w.net == Quiet() && FreshIds(w.cfg) && NeutralConverter(w.cfg) && agent.startError.None?
    requires Handle(w, run, userId, req, agent, b).start.Some?
    requires n < Survived(w.cfg, agent) && Completes(agent.arrivals, n)
    ensures var key, given := SessionKey(userId, run.threadId), Given(req.state);
            var trace := Handle(w, run, userId, req, agent, b).sys.offered;
            && k <= |trace| && AllClosed(trace[..k])
            && Read(trace[..k]).lines
               == [Line("", RunStarted(run.threadId, run.runId))] +
                  In("", StateShown(Merged(StateBefore(w, b, key), given))) +
                  LinesUpTo(w.cfg, agent.arrivals, n + 1)
  {
    hide Handle, Launch, Prepared, Read, Stands, Good, Snapshot, Merged, LinesUpTo, StateShown, TurnOf, AllClosed;
    hide EndingArrival, In;
    var key, given := SessionKey(userId, run.threadId), Given(req.state);
    StartedIsLaunched(w, run, userId, req, agent, b);
    ReadyIsPrepared(w, run, userId, req, b);
    var (b', session) := Prepared(w, run, userId, req, b);
    StartStands(w, run, userId, req, session.value);
    SameMerged(session.value, StateBefore(w, b, key), given);
    StartIsGood(w.cfg, run, userId, req, session.value);
    OneIn(RunStarted(run.threadId, run.runId));
    var lines := In("", [RunStarted(run.threadId, run.runId)]) +
                 In("", StateShown(Merged(StateBefore(w, b, key), given)));
    k := LaunchClosesTurn(w, req, agent, n, session.value, Admitted(run, userId, req), b', lines);
  }

  lemma StartIsGood(cfg: Config, run: RunInfo, userId: string, req: Request, session: Option<Session>)
    ensures Good(cfg, OfferState(Snapshot(session, StateOf(req)), Admitted(run, userId, req)))
  {
    hide Follow, Snapshot;
    StartTracks(cfg, run);
    assert Good(cfg, Admitted(run, userId, req));
    OfferPlainTracks(cfg, StateSnapshot(Snapshot(session, StateOf(req))), Admitted(run, userId, req));
  }
}
