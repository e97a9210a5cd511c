/** What a run leaves unchanged, the interrupt it records, and how it ends. */
module Outcomes {
  import opened Values
  import opened Adk
  import opened Protocol
  import opened Launcher
  import opened Emission
  import opened Sessions
  import opened Interrupts
  import opened StreamSpec
  import opened RunSpec
  import opened Halting

  // ----- parts and events

  lemma FinalizeKeeps(sys: Sys)
    ensures Finalize(sys).st.run == sys.st.run && Finalize(sys).st.interrupts == sys.st.interrupts
    ensures Finalize(sys).st.finalized == sys.st.finalized
  {
  }

  predicate SameRun(a: Sys, b: Sys) {
    a.st.run == b.st.run && a.st.interrupts == b.st.interrupts
  }

  lemma ThoughtKeeps(cfg: Config, text: string, sys: Sys)
    ensures SameRun(sys, Thought(cfg, text, sys))
  {
    if |text| > sys.st.emittedLen {
      var closed := CloseText(sys.(st := sys.st.(emittedLen := |text|)));
      assert SameRun(sys, closed) && SameRun(closed, OpenPhase(cfg, closed));
      assert SameRun(closed, OpenThought(cfg, OpenPhase(cfg, closed)));
    }
  }

  lemma TextKeeps(cfg: Config, partial: bool, text: string, sys: Sys)
    ensures SameRun(sys, Text(cfg, partial, text, sys))
  {
    assert SameRun(sys, CloseReasoning(sys));
    assert SameRun(sys, OpenText(cfg, CloseReasoning(sys)));
  }

  lemma CloseKeeps(sys: Sys)
    ensures SameRun(sys, CloseReasoning(CloseText(sys)))
  {
  }

  /** A confirmation call that interrupts records the interrupt made for that very call;
      anything else records nothing. */
  lemma InterruptingKeeps(cfg: Config, stored: Option<Session>, call: FunctionCall, sys: Sys)
    ensures var (next, status) := Interrupting(cfg, stored, call, sys);
            && next.st.run == sys.st.run
            && (!status.Done? ==> next.st.interrupts == sys.st.interrupts)
            && (status.Done? ==>
                  && cfg.original(call).Some?
                  && next.st.interrupts == sys.st.interrupts + [InterruptFor(cfg, call, cfg.original(call).value)])
  {
    hide Finalize;
    FinalizeKeeps(sys);
    var original := cfg.original(call);
    if original.Some? {
      var (proposed, status) := Call(cfg, original.value, Finalize(sys));
      var bounded := BoundarySnapshots(cfg, stored, proposed);
      assert bounded.st == proposed.st == Finalize(sys).st;
    }
  }

  /** One part never changes the run's identity. It records an interrupt only if it is a
      confirmation call that interrupts: the one under that call's own id. */
  lemma OnePartKeeps(cfg: Config, stored: Option<Session>, ev: Event, part: Part, sys: Sys)
    ensures var (next, status) := OnePart(cfg, stored, ev, part, sys);
            && next.st.run == sys.st.run
            && (!status.Done? ==> next.st.interrupts == sys.st.interrupts)
            && (status.Done? ==>
                  Pauses(cfg, ev, part) && next.st.interrupts == sys.st.interrupts + [AskedBy(cfg, part)])
  {
    hide Interrupting, Thought, Text, CloseText, CloseReasoning;
    PartEnds(cfg, stored, ev, part, sys);
    if part.Part? {
      ThoughtKeeps(cfg, part.text, sys);
      TextKeeps(cfg, ev.partial, part.text, sys);
      CloseKeeps(sys);
      if part.call.Some? {
        InterruptingKeeps(cfg, stored, part.call.value, CloseReasoning(CloseText(sys)));
      }
    }
  }

  /** Parts from i on: what they record is decided by the ending part, whatever the net does. */
  lemma {:induction false} PartsKeep(cfg: Config, net: Net, stored: Option<Session>, ev: Event, i: nat, sys: Sys)
    requires i <= |PartsOf(ev)|
    ensures var (next, status) := RunParts(cfg, net, stored, ev, i, sys);
            var m := EndingPart(cfg, ev, i);
            && next.st.run == sys.st.run
            && (status.Continue? ==> m == |PartsOf(ev)|)
            && (!status.Done? ==> next.st.interrupts == sys.st.interrupts)
            && (status.Done? ==>
                  && m < |PartsOf(ev)| && Pauses(cfg, ev, PartsOf(ev)[m])
                  && next.st.interrupts == sys.st.interrupts + [AskedBy(cfg, PartsOf(ev)[m])])
    decreases |PartsOf(ev)| - i
  {
    hide OnePart, Fails, EndsRun, Pauses, AskedBy;
    if i < |PartsOf(ev)| && !Fails(net, sys.offered) {
      OnePartKeeps(cfg, stored, ev, PartsOf(ev)[i], sys);
      PartEnds(cfg, stored, ev, PartsOf(ev)[i], sys);
      var (next, status) := OnePart(cfg, stored, ev, PartsOf(ev)[i], sys);
      if status.Continue? {
        PartsKeep(cfg, net, stored, ev, i + 1, next);
      }
    }
  }

  lemma EventKeeps(cfg: Config, net: Net, stored: Option<Session>, ev: Event, sys: Sys)
    ensures var (next, status) := RunEvent(cfg, net, stored, ev, sys);
            && next.st.run == sys.st.run
            && (status.Continue? ==> EndingPart(cfg, ev, 0) == |PartsOf(ev)|)
            && (!status.Done? ==> next.st.interrupts == sys.st.interrupts)
            && (status.Done? ==>
                  PausesIn(cfg, ev) && next.st.interrupts == sys.st.interrupts + [AskedIn(cfg, ev)])
  {
    hide RunParts, Finalize, Fails, EndingPart;
    var begun := ChangeStep(cfg.appName, ev.author, sys);
    PartsKeep(cfg, net, stored, ev, 0, begun);
    FinalizeKeeps(OfferDelta(ev.delta, RunParts(cfg, net, stored, ev, 0, begun).0));
  }

  lemma ErrorKeeps(fault: RunFault, sys: Sys)
    ensures EmitError(fault, sys).st.run == sys.st.run && EmitError(fault, sys).st.interrupts == sys.st.interrupts
  {
    hide Finalize;
    FinalizeKeeps(sys);
  }

  // ----- the loop

  /** What the arrivals from i on can make a run record: nothing, or the interrupt of the
      confirmation call at the ending arrival. */
  predicate Recorded(cfg: Config, arrivals: seq<Arrival>, i: nat, interrupts: seq<Interrupt>)
    requires i <= |arrivals|
  {
    var n := EndingArrival(cfg, arrivals, i);
    interrupts == [] ||
    (n < |arrivals| && PausesAt(cfg, arrivals[n].item) && interrupts == [AskedIn(cfg, arrivals[n].item.event)])
  }

  lemma {:induction false} LoopKeepsRun(w: World, agent: Agent, i: nat, sys: Sys, b: Backend)
    requires i <= |agent.arrivals| && sys.st.interrupts == []
    ensures var (next, _, error) := RunLoop(w, agent, i, sys, b);
            && next.st.run == sys.st.run
            && Recorded(w.cfg, agent.arrivals, i, next.st.interrupts)
            && (error.Some? ==> next.st.interrupts == [])
    decreases |agent.arrivals| - i
  {
    hide RunEvent, EmitError, EndingPart, PausesIn, AskedIn, PartsOf;
    if i < |agent.arrivals| {
      var b' := Put(b, KeyOf(sys.st.run), agent.arrivals[i].session);
      match agent.arrivals[i].item
      case Failure(message) => ErrorKeeps(AgentFailed(message, ""), sys);
      case NilEvent => LoopKeepsRun(w, agent, i + 1, sys, b');
      case Yielded(ev) =>
        if ev.errorMessage != "" {
          ErrorKeeps(AgentFailed(ev.errorMessage, ev.errorCode), sys);
        } else {
          var stored := LookupOption(Get(w.faults, b', KeyOf(sys.st.run)));
          EventKeeps(w.cfg, w.net, stored, ev, sys);
          var (next, status) := RunEvent(w.cfg, w.net, stored, ev, sys);
          match status
          case Stop(fault) => ErrorKeeps(fault, next);
          case Done => AskingEnds(w.cfg, ev);
          case Continue => LoopKeepsRun(w, agent, i + 1, next, b');
        }
    }
  }

  lemma AskingEnds(cfg: Config, ev: Event)
    ensures PausesIn(cfg, ev) ==> EndingPart(cfg, ev, 0) < |PartsOf(ev)|
  {
  }

  lemma PutTwice(b: Backend, key: SessionKey, s: Session, t: Session)
    ensures Put(Put(b, key, s), key, t) == Put(b, key, t)
  {
  }

  /** The service when the event loop ends at arrival n, or after all arrivals. */
  function LoopLeaves(cfg: Config, run: RunInfo, agent: Agent, n: nat, b: Backend): Backend
    requires n <= |agent.arrivals|
  {
    if n == |agent.arrivals| then Put(b, KeyOf(run), agent.final)
    else
      var b' := Put(b, KeyOf(run), agent.arrivals[n].session);
      if PausesAt(cfg, agent.arrivals[n].item) && run.userId != "" then Called(b') else b'
  }

  /** The loop ends at the ending arrival: with that arrival's interrupt if it asks for
      confirmation, otherwise with an error; it drains the agent only if nothing ends it. */
  lemma {:induction false} LoopEnds(w: World, agent: Agent, i: nat, sys: Sys, b: Backend)
    requires i <= |agent.arrivals| && w.net == Quiet() && sys.st.interrupts == []
    ensures var (next, left, error) := RunLoop(w, agent, i, sys, b);
            var n := EndingArrival(w.cfg, agent.arrivals, i);
            && (error.Some? <==> n < |agent.arrivals| && !PausesAt(w.cfg, agent.arrivals[n].item))
            && (next.st.interrupts != [] <==> n < |agent.arrivals| && PausesAt(w.cfg, agent.arrivals[n].item))
            && left == LoopLeaves(w.cfg, sys.st.run, agent, n, b)
    decreases |agent.arrivals| - i
  {
    hide RunEvent, EmitError, EndingPart, PausesIn, AskedIn, PartsOf;
    if i < |agent.arrivals| {
      var b' := Put(b, KeyOf(sys.st.run), agent.arrivals[i].session);
      var n := EndingArrival(w.cfg, agent.arrivals, i);
      PutTwice(b, KeyOf(sys.st.run), agent.arrivals[i].session,
               if n == |agent.arrivals| then agent.final else agent.arrivals[n].session);
      match agent.arrivals[i].item
      case Failure(message) => ErrorKeeps(AgentFailed(message, ""), sys);
      case NilEvent => LoopEnds(w, agent, i + 1, sys, b');
      case Yielded(ev) =>
        AskingEnds(w.cfg, ev);
        if ev.errorMessage != "" {
          ErrorKeeps(AgentFailed(ev.errorMessage, ev.errorCode), sys);
        } else {
          var stored := LookupOption(Get(w.faults, b', KeyOf(sys.st.run)));
          EventKeeps(w.cfg, w.net, stored, ev, sys);
          EventEnds(w.cfg, stored, ev, sys);
          var (next, status) := RunEvent(w.cfg, w.net, stored, ev, sys);
          match status
          case Stop(fault) => ErrorKeeps(fault, next);
          case Done =>
          case Continue => LoopEnds(w, agent, i + 1, next, b');
        }
    }
  }

  // ----- whole requests

  lemma LaunchKeepsRun(w: World, req: Request, agent: Agent, session: Option<Session>, sys: Sys, b: Backend)
    requires sys.st.interrupts == []
    ensures var last := Launch(w, req, agent, session, sys, b).sys.st;
            && last.run == sys.st.run
            && (last.interrupts == [] || (Paused(w.cfg, agent) && last.interrupts == [Asked(w.cfg, agent)]))
  {
    hide EmitError, RunLoop, Finalize, EndingArrival, PausesAt, AskedIn;
    var ready := OfferState(Snapshot(session, StateOf(req)), sys);
    match TurnOf(req)
    case Err(fault) => ErrorKeeps(fault, ready);
    case Ok(turn) =>
      if agent.startError.Some? {
        ErrorKeeps(AgentFailed(agent.startError.value, ""), ready);
      } else {
        LoopKeepsRun(w, agent, 0, ready, b);
        FinalizeKeeps(RunLoop(w, agent, 0, ready, b).0);
      }
  }

  /** Whatever the network and the session service do, a run never changes its thread id or
      run id, and records nothing or the interrupt for the confirmation call that ended it. */
  lemma RunKeepsIds(w: World, run: RunInfo, userId: string, req: Request, agent: Agent, b: Backend)
    ensures var last := Handle(w, run, userId, req, agent, b).sys.st;
            && last.run.threadId == run.threadId && last.run.runId == run.runId
            && (last.interrupts == [] || (Paused(w.cfg, agent) && last.interrupts == [Asked(w.cfg, agent)]))
  {
    hide EmitError, Launch, Ensured, PendingOf, Accepted, Fails, Paused;
    var sys := Offer(Sys(Initial(run), []), RunStarted(run.threadId, run.runId));
    var admitted := sys.(st := sys.st.(run := sys.st.run.(userId := userId, reqState := StateOf(req))));
    ErrorKeeps(PendingCorrupt, sys);
    ErrorKeeps(ResumeRejected, sys);
    ErrorKeeps(SessionUnavailable, admitted);
    var (b', session) := Ensured(w.faults, Called(b), SessionKey(userId, run.threadId), StateOf(req));
    if session.Some? {
      LaunchKeepsRun(w, req, agent, session.value, admitted, b');
    }
  }

  /** The run once it has been announced and admitted. */
  function Admitted(run: RunInfo, userId: string, req: Request): Sys {
    var sys := Offer(Sys(Initial(run), []), RunStarted(run.threadId, run.runId));
    sys.(st := sys.st.(run := run.(userId := userId, reqState := StateOf(req))))
  }

  /** The session service and the session that the agent is launched with. */
  function Prepared(w: World, run: RunInfo, userId: string, req: Request,
          b: Backend): (Backend, Option<Option<Session>>)
  {
    Ensured(w.faults, Called(b), SessionKey(userId, run.threadId), StateOf(req))
  }

  lemma LaunchStarts(w: World, req: Request, agent: Agent, session: Option<Session>, sys: Sys, b: Backend)
    ensures Launch(w, req, agent, session, sys, b).start ==
            if TurnOf(req).Err? then None
            else Some(Start(sys.st.run.userId, sys.st.run.threadId, TurnOf(req).value, StateOf(req)))
  {
    hide EmitError, RunLoop, Finalize, Persist, Snapshot, TurnOf;
  }

  /** Exactly when a request starts the agent, whatever fails; then it is its launch. */
  lemma StartedIsLaunched(w: World, run: RunInfo, userId: string, req: Request, agent: Agent, b: Backend)
    ensures var records := PendingOf(Get(w.faults, b, SessionKey(userId, run.threadId)));
            Handle(w, run, userId, req, agent, b).start.Some? <==>
              && !Fails(w.net, [RunStarted(run.threadId, run.runId)])
              && records.Some? && Accepted(req.resume, records.value, w.clock, w.now)
              && Prepared(w, run, userId, req, b).1.Some? && TurnOf(req).Ok?
    ensures Handle(w, run, userId, req, agent, b).start.Some? ==>
              var (b', session) := Prepared(w, run, userId, req, b);
              && Handle(w, run, userId, req, agent, b)
                 == Launch(w, req, agent, session.value, Admitted(run, userId, req), b')
              && Handle(w, run, userId, req, agent, b).start
                 == Some(Start(userId, run.threadId, TurnOf(req).value, StateOf(req)))
  {
    hide EmitError, Launch, Ensured, PendingOf, Fails, Snapshot, Accepted, TurnOf;
    var (b', session) := Prepared(w, run, userId, req, b);
    if session.Some? {
      LaunchStarts(w, req, agent, session.value, Admitted(run, userId, req), b');
    }
    assert Offer(Sys(Initial(run), []), RunStarted(run.threadId, run.runId)).offered
        == [RunStarted(run.threadId, run.runId)];
  }

  /** Whether a request that ends with these interrupts can store them, or the clear. */
  predicate CanStore(w: World, run: RunInfo, userId: string, req: Request, agent: Agent, b: Backend) {
    var admitted := Admitted(run, userId, req).st.run;
    var left := LoopLeaves(w.cfg, admitted, agent, Survived(w.cfg, agent), Prepared(w, run, userId, req, b).0);
    Persist(w.faults, left, KeyOf(admitted),
            RecordsOf(if Paused(w.cfg, agent) then [Asked(w.cfg, agent)] else [])).1
  }

  /** How a request that starts the agent ends for a client that stays: interrupted exactly
      when the agent's first ending arrival asks for confirmation, with that call's
      interrupt; without an error exactly when it is interrupted or drained and the pending
      interrupts, or the clear, are stored. */
  lemma RequestEnds(w: World, run: RunInfo, userId: string, req: Request, agent: Agent, b: Backend)
    requires w.net == Quiet() && Handle(w, run, userId, req, agent, b).start.Some?
    ensures var o := Handle(w, run, userId, req, agent, b);
            && o.sys.st.interrupts == (if Paused(w.cfg, agent) then [Asked(w.cfg, agent)] else [])
            && (o.error.None? <==>
                  && agent.startError.None?
                  && (Survived(w.cfg, agent) == |agent.arrivals| || Paused(w.cfg, agent))
                  && CanStore(w, run, userId, req, agent, b))
  {
    hide RunLoop, Finalize, EmitError, Ensured, Persist, PausesAt, EndingArrival, AskedIn, LoopLeaves;
    StartedIsLaunched(w, run, userId, req, agent, b);
    var (b', session) := Prepared(w, run, userId, req, b);
    var sys := Admitted(run, userId, req);
    var ready := OfferState(Snapshot(session.value, StateOf(req)), sys);
    if agent.startError.Some? {
      ErrorKeeps(AgentFailed(agent.startError.value, ""), ready);
    } else {
      LoopEnds(w, agent, 0, ready, b');
      LoopKeepsRun(w, agent, 0, ready, b');
      FinalizeKeeps(RunLoop(w, agent, 0, ready, b').0);
    }
  }
}
