/** A run whose client goes away is the failure-free run cut short: nothing it does after
    the failure reaches the wire, and nothing before it differs. */
module Simulation {
  import opened Values
  import opened Adk
  import opened Protocol
  import opened Launcher
  import opened Emission
  import opened Sessions
  import opened Grammar
  import opened StreamSpec
  import opened RunSpec
  import opened RunGrammar

  /** `a` failed on this net, and the wire it left is the wire that `b` would leave. */
  predicate Severed(net: Net, a: seq<AgEvent>, b: seq<AgEvent>) {
    Fails(net, a) && Send(net, a) == Send(net, b)
  }

  lemma StaysSevered(net: Net, a: seq<AgEvent>, b: seq<AgEvent>, a': seq<AgEvent>, b': seq<AgEvent>)
    requires Severed(net, a, b) && a <= a' && b <= b'
    ensures Severed(net, a', b')
  {
    hide Send;
    FailureAbsorbs(net, a, a'[|a|..]);
    FailureAbsorbs(net, b, b'[|b|..]);
    assert a + a'[|a|..] == a' && b + b'[|b|..] == b';
  }

  // ----- every operation only adds to what was offered

  lemma FinalizeGrows(sys: Sys)
    ensures sys.offered <= Finalize(sys).offered
  {
    assert sys.offered <= CloseText(sys).offered;
    assert CloseText(sys).offered <= CloseReasoning(CloseText(sys)).offered;
  }

  lemma ThoughtGrows(cfg: Config, text: string, sys: Sys)
    ensures sys.offered <= Thought(cfg, text, sys).offered
  {
    if |text| > sys.st.emittedLen {
      var closed := CloseText(sys.(st := sys.st.(emittedLen := |text|)));
      assert sys.offered <= closed.offered <= OpenPhase(cfg, closed).offered;
      assert OpenPhase(cfg, closed).offered <= OpenThought(cfg, OpenPhase(cfg, closed)).offered;
    }
  }

  lemma TextGrows(cfg: Config, partial: bool, text: string, sys: Sys)
    ensures sys.offered <= Text(cfg, partial, text, sys).offered
  {
    assert sys.offered <= CloseReasoning(sys).offered <= OpenText(cfg, CloseReasoning(sys)).offered;
  }

  lemma InterruptingGrows(cfg: Config, stored: Option<Session>, call: FunctionCall, sys: Sys)
    ensures sys.offered <= Interrupting(cfg, stored, call, sys).0.offered
  {
    hide Finalize;
    var original := cfg.original(call);
    if original.Some? {
      FinalizeGrows(sys);
      var proposed := Call(cfg, original.value, Finalize(sys)).0;
      assert Finalize(sys).offered <= proposed.offered;
      assert proposed.offered <= BoundarySnapshots(cfg, stored, proposed).offered;
    }
  }

  lemma OnePartGrows(cfg: Config, stored: Option<Session>, ev: Event, part: Part, sys: Sys)
    ensures sys.offered <= OnePart(cfg, stored, ev, part, sys).0.offered
  {
    hide Interrupting, Thought, Text;
    if part.Part? {
      ThoughtGrows(cfg, part.text, sys);
      TextGrows(cfg, ev.partial, part.text, sys);
      if part.call.Some? {
        var closed := CloseReasoning(CloseText(sys));
        assert sys.offered <= CloseText(sys).offered <= closed.offered;
        InterruptingGrows(cfg, stored, part.call.value, closed);
      }
    }
  }

  lemma {:induction false} PartsGrow(cfg: Config, net: Net, stored: Option<Session>, ev: Event, i: nat, sys: Sys)
    requires i <= |PartsOf(ev)|
    ensures sys.offered <= RunParts(cfg, net, stored, ev, i, sys).0.offered
    decreases |PartsOf(ev)| - i
  {
    hide OnePart, Send;
    if i < |PartsOf(ev)| && !Fails(net, sys.offered) {
      OnePartGrows(cfg, stored, ev, PartsOf(ev)[i], sys);
      var (next, status) := OnePart(cfg, stored, ev, PartsOf(ev)[i], sys);
      if status.Continue? {
        PartsGrow(cfg, net, stored, ev, i + 1, next);
      }
    }
  }

  lemma EndingGrows(ev: Event, sys: Sys)
    ensures sys.offered <= Ending(ev, sys).offered
  {
    hide Finalize;
    FinalizeGrows(OfferDelta(ev.delta, sys));
  }

  lemma EventGrows(cfg: Config, net: Net, stored: Option<Session>, ev: Event, sys: Sys)
    ensures sys.offered <= RunEvent(cfg, net, stored, ev, sys).0.offered
  {
    hide RunParts, Ending, Send;
    var begun := ChangeStep(cfg.appName, ev.author, sys);
    assert sys.offered <= begun.offered;
    PartsGrow(cfg, net, stored, ev, 0, begun);
    EndingGrows(ev, RunParts(cfg, net, stored, ev, 0, begun).0);
  }

  lemma ErrorGrows(fault: RunFault, sys: Sys)
    ensures sys.offered <= EmitError(fault, sys).offered
  {
    hide Finalize;
    FinalizeGrows(sys);
  }

  lemma {:induction false} LoopGrows(w: World, agent: Agent, i: nat, sys: Sys, b: Backend)
    requires i <= |agent.arrivals|
    ensures sys.offered <= RunLoop(w, agent, i, sys, b).0.offered
    decreases |agent.arrivals| - i
  {
    hide RunEvent, EmitError;
    if i < |agent.arrivals| {
      var b' := Put(b, KeyOf(sys.st.run), agent.arrivals[i].session);
      match agent.arrivals[i].item
      case Failure(message) => ErrorGrows(AgentFailed(message, ""), sys);
      case NilEvent => LoopGrows(w, agent, i + 1, sys, b');
      case Yielded(ev) =>
        if ev.errorMessage != "" {
          ErrorGrows(AgentFailed(ev.errorMessage, ev.errorCode), sys);
        } else {
          var stored := LookupOption(Get(w.faults, b', KeyOf(sys.st.run)));
          EventGrows(w.cfg, w.net, stored, ev, sys);
          var (next, status) := RunEvent(w.cfg, w.net, stored, ev, sys);
          match status
          case Stop(fault) => ErrorGrows(fault, next);
          case Done =>
          case Continue => LoopGrows(w, agent, i + 1, next, b');
        }
    }
  }

  lemma ConcludeGrows(w: World, sys: Sys, b: Backend, error: Option<RunFault>, start: Option<Start>)
    ensures sys.offered <= Conclude(w, sys, b, error, start).sys.offered
  {
    hide Finalize;
    FinalizeGrows(sys);
  }

  lemma LaunchGrows(w: World, req: Request, agent: Agent, session: Option<Session>, sys: Sys, b: Backend)
    ensures sys.offered <= Launch(w, req, agent, session, sys, b).sys.offered
  {
    hide EmitError, RunLoop, Conclude;
    var ready := OfferState(Snapshot(session, StateOf(req)), sys);
    match TurnOf(req)
    case Err(fault) => ErrorGrows(fault, ready);
    case Ok(turn) =>
      if agent.startError.Some? {
        ErrorGrows(AgentFailed(agent.startError.value, ""), ready);
      } else {
        LoopGrows(w, agent, 0, ready, b);
        var (last, b', error) := RunLoop(w, agent, 0, ready, b);
        ConcludeGrows(w, last, b', error, Some(Start(sys.st.run.userId, sys.st.run.threadId, turn, StateOf(req))));
      }
  }

  lemma AdmitGrows(w: World, userId: string, req: Request, agent: Agent, sys: Sys, b: Backend)
    ensures sys.offered <= Admit(w, userId, req, agent, sys, b).sys.offered
  {
    hide EmitError, Launch, Ensured, PendingOf;
    ErrorGrows(PendingCorrupt, sys);
    ErrorGrows(ResumeRejected, sys);
    var admitted := sys.(st := sys.st.(run := sys.st.run.(userId := userId, reqState := StateOf(req))));
    ErrorGrows(SessionUnavailable, admitted);
    var (b', session) := Ensured(w.faults, Called(b), SessionKey(userId, sys.st.run.threadId), StateOf(req));
    if session.Some? {
      LaunchGrows(w, req, agent, session.value, admitted, b');
    }
  }

  // ----- the failing run against the failure-free run

  lemma {:induction false} PartsSimulate(cfg: Config, net: Net, stored: Option<Session>, ev: Event, i: nat, sys: Sys)
    requires i <= |PartsOf(ev)|
    ensures var a, b := RunParts(cfg, net, stored, ev, i, sys), RunParts(cfg, Quiet(), stored, ev, i, sys);
            a == b || Severed(net, a.0.offered, b.0.offered)
    decreases |PartsOf(ev)| - i
  {
    hide OnePart, Send;
    QuietSends(sys.offered);
    if i < |PartsOf(ev)| {
      if Fails(net, sys.offered) {
        PartsGrow(cfg, Quiet(), stored, ev, i, sys);
        var b := RunParts(cfg, Quiet(), stored, ev, i, sys).0.offered;
        StaysSevered(net, sys.offered, sys.offered, sys.offered, b);
      } else {
        var (next, status) := OnePart(cfg, stored, ev, PartsOf(ev)[i], sys);
        if status.Continue? {
          PartsSimulate(cfg, net, stored, ev, i + 1, next);
        }
      }
    }
  }

  lemma EventSimulates(cfg: Config, net: Net, stored: Option<Session>, ev: Event, sys: Sys)
    ensures var a, b := RunEvent(cfg, net, stored, ev, sys), RunEvent(cfg, Quiet(), stored, ev, sys);
            a == b || Severed(net, a.0.offered, b.0.offered)
  {
    hide RunParts, Ending, ChangeStep, Send;
    var begun := ChangeStep(cfg.appName, ev.author, sys);
    PartsSimulate(cfg, net, stored, ev, 0, begun);
    var (a, sa) := RunParts(cfg, net, stored, ev, 0, begun);
    var (b, sb) := RunParts(cfg, Quiet(), stored, ev, 0, begun);
    EndingGrows(ev, a);
    EndingGrows(ev, b);
    QuietSends(Ending(ev, b).offered);
    if Severed(net, a.offered, b.offered) {
      StaysSevered(net, a.offered, b.offered, RunEvent(cfg, net, stored, ev, sys).0.offered,
                   RunEvent(cfg, Quiet(), stored, ev, sys).0.offered);
    }
  }

  function Silent(w: World): World {
    w.(net := Quiet())
  }

  lemma {:induction false} LoopSimulates(w: World, agent: Agent, i: nat, sys: Sys, b: Backend)
    requires i <= |agent.arrivals|
    ensures var x, y := RunLoop(w, agent, i, sys, b), RunLoop(Silent(w), agent, i, sys, b);
            x == y || Severed(w.net, x.0.offered, y.0.offered)
    decreases |agent.arrivals| - i
  {
    hide RunEvent, EmitError, Severed, Send;
    if i < |agent.arrivals| {
      var b' := Put(b, KeyOf(sys.st.run), agent.arrivals[i].session);
      match agent.arrivals[i].item
      case Failure(message) =>
      case NilEvent => LoopSimulates(w, agent, i + 1, sys, b');
      case Yielded(ev) =>
        if ev.errorMessage == "" {
          var stored := LookupOption(Get(w.faults, b', KeyOf(sys.st.run)));
          EventSimulates(w.cfg, w.net, stored, ev, sys);
          var (x, sx) := RunEvent(w.cfg, w.net, stored, ev, sys);
          var (y, sy) := RunEvent(w.cfg, Quiet(), stored, ev, sys);
          if (x, sx) == (y, sy) {
            if sx.Continue? {
              LoopSimulates(w, agent, i + 1, x, b');
            }
          } else {
            AfterEventGrows(w, agent, i, sys, b, ev, x, sx);
            AfterEventGrows(Silent(w), agent, i, sys, b, ev, y, sy);
            StaysSevered(w.net, x.offered, y.offered, RunLoop(w, agent, i, sys, b).0.offered,
                         RunLoop(Silent(w), agent, i, sys, b).0.offered);
          }
        }
    }
  }

  /** The rest of the loop after an event adds to what that event left. */
  lemma AfterEventGrows(w: World, agent: Agent, i: nat, sys: Sys, b: Backend, ev: Event, next: Sys, status: Status)
    requires i < |agent.arrivals| && agent.arrivals[i].item == Yielded(ev) && ev.errorMessage == ""
    requires var b' := Put(b, KeyOf(sys.st.run), agent.arrivals[i].session);
             var stored := LookupOption(Get(w.faults, b', KeyOf(sys.st.run)));
             RunEvent(w.cfg, w.net, stored, ev, sys) == (next, status)
    ensures next.offered <= RunLoop(w, agent, i, sys, b).0.offered
  {
    hide RunEvent, EmitError;
    match status
    case Stop(fault) => ErrorGrows(fault, next);
    case Done =>
    case Continue => LoopGrows(w, agent, i + 1, next, Put(b, KeyOf(sys.st.run), agent.arrivals[i].session));
  }

  lemma LaunchSimulates(w: World, req: Request, agent: Agent, session: Option<Session>, sys: Sys, b: Backend)
    ensures var x, y := Launch(w, req, agent, session, sys, b), Launch(Silent(w), req, agent, session, sys, b);
            x == y || Severed(w.net, x.sys.offered, y.sys.offered)
  {
    hide EmitError, RunLoop, Severed, Send, Finalize, Persist;
    var ready := OfferState(Snapshot(session, StateOf(req)), sys);
    if TurnOf(req).Ok? && agent.startError.None? {
      LoopSimulates(w, agent, 0, ready, b);
      var (x, bx, ex) := RunLoop(w, agent, 0, ready, b);
      var (y, bb, ey) := RunLoop(Silent(w), agent, 0, ready, b);
      if (x, bx, ex) != (y, bb, ey) {
        var start := Some(Start(sys.st.run.userId, sys.st.run.threadId, TurnOf(req).value, StateOf(req)));
        ConcludeGrows(w, x, bx, ex, start);
        ConcludeGrows(Silent(w), y, bb, ey, start);
        StaysSevered(w.net, x.offered, y.offered, Conclude(w, x, bx, ex, start).sys.offered,
                     Conclude(Silent(w), y, bb, ey, start).sys.offered);
      }
    }
  }

  lemma AdmitSimulates(w: World, userId: string, req: Request, agent: Agent, sys: Sys, b: Backend)
    ensures var x, y := Admit(w, userId, req, agent, sys, b), Admit(Silent(w), userId, req, agent, sys, b);
            x == y || Severed(w.net, x.sys.offered, y.sys.offered)
  {
    hide EmitError, Launch, Ensured, PendingOf, Severed, Send;
    var admitted := sys.(st := sys.st.(run := sys.st.run.(userId := userId, reqState := StateOf(req))));
    var (b', session) := Ensured(w.faults, Called(b), SessionKey(userId, sys.st.run.threadId), StateOf(req));
    if session.Some? {
      LaunchSimulates(w, req, agent, session.value, admitted, b');
    }
  }

  /** With any interceptors and any failing write, the wire is what the emitter makes of the
      failure-free event sequence: a failure cuts that sequence and changes nothing else. */
  lemma FailureOnlyCuts(w: World, run: RunInfo, userId: string, req: Request, agent: Agent, b: Backend)
    ensures Send(w.net, Handle(w, run, userId, req, agent, b).sys.offered)
         == Send(w.net, Handle(Silent(w), run, userId, req, agent, b).sys.offered)
    ensures !Fails(w.net, Handle(w, run, userId, req, agent, b).sys.offered) ==>
              Handle(w, run, userId, req, agent, b) == Handle(Silent(w), run, userId, req, agent, b)
  {
    hide Admit, Send;
    var sys := Offer(Sys(Initial(run), []), RunStarted(run.threadId, run.runId));
    QuietSends(sys.offered);
    if Fails(w.net, sys.offered) {
      AdmitGrows(Silent(w), userId, req, agent, sys, b);
      StaysSevered(w.net, sys.offered, sys.offered, sys.offered,
                   Admit(Silent(w), userId, req, agent, sys, b).sys.offered);
    } else {
      AdmitSimulates(w, userId, req, agent, sys, b);
    }
  }

  /** With interceptors that pass events on or fail: if event k is the first whose write or
      interceptor fails, exactly the k events before it arrive; they are a prefix of a
      complete stream. */
  lemma WireIsPrefixOfCompleteStream(w: World, run: RunInfo, userId: string, req: Request, agent: Agent, b: Backend)
    requires Faithful(w.net.hooks) && FreshIds(w.cfg) && NeutralConverter(w.cfg)
    ensures Complete(Handle(Silent(w), run, userId, req, agent, b))
    ensures CutOf(w.net, Send(w.net, Handle(w, run, userId, req, agent, b).sys.offered),
                  Handle(Silent(w), run, userId, req, agent, b).sys.offered)
    ensures Follow(Send(w.net, Handle(w, run, userId, req, agent, b).sys.offered).sent).Some?
  {
    hide Handle, Send, Follow, EndedInError, Complete, Stops;
    FailureOnlyCuts(w, run, userId, req, agent, b);
    RunIsInGrammar(Silent(w), run, userId, req, agent, b);
    var full := Handle(Silent(w), run, userId, req, agent, b).sys.offered;
    FaithfulCut(w.net, full);
    CompleteFollows(Handle(Silent(w), run, userId, req, agent, b));
    var sent := Send(w.net, full).sent;
    FollowPrefix(full, |sent|);
    assert full[..|sent|] == sent;
  }

  lemma CompleteFollows(o: Outcome)
    requires Complete(o)
    ensures Follow(o.sys.offered).Some? && Follow(o.sys.offered).value.Closed?
  {
  }
}
