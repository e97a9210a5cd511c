/** The /run_sse handler from the SSE commitment point on (agui/agui.go). */
module Run {
  import opened Values
  import opened Adk
  import opened Protocol
  import opened Emission
  import opened Sessions
  import opened Interrupts
  import opened Persistence
  import opened Resume
  import opened StreamSpec
  import opened Stream
  import opened RunSpec

  /** The emitError closure: at most one terminal event. */
  method SendError(e: Emitter, state: StreamState, fault: RunFault)
    requires e.Valid()
    modifies e, state
    ensures e.Valid() && state.Now(e) == EmitError(fault, old(state.Now(e)))
  {
    hide Send, RunHooks, EmitOne;
    if state.runFinalized {
      return;
    }
    state.FinalizeLifecycle(e);
    e.Emit(RunError(state.runId, fault));
    state.runFinalized := true;
  }

  method LoadPendingInterrupts(svc: SessionService, key: SessionKey) returns (pending: Option<seq<PendingRecord>>)
    modifies svc
    ensures pending == PendingOf(Get(svc.faults, old(svc.View()), key))
    ensures svc.View() == Called(old(svc.View()))
  {
    var found := svc.GetSession(key);
    if !found.Loaded? {
      return Some([]);
    }
    if PENDING_KEY !in found.session.state {
      return Some([]);
    }
    return DecodeRecords(found.session.state[PENDING_KEY]);
  }

  method WritePendingInterrupts(svc: SessionService, key: SessionKey, records: seq<PendingRecord>) returns (ok: bool)
    modifies svc
    ensures (svc.View(), ok) == Persist(svc.faults, old(svc.View()), key, records)
  {
    var found := svc.GetSession(key);
    match found {
      case Unconfigured =>
        return true;
      case NotLoaded =>
        return false;
      case Loaded(session) =>
        ok := svc.AppendEvent(key, session, PersistEvent(records));
    }
  }

  /** The event loop. */
  method StreamEvents(w: World, agent: Agent, e: Emitter, state: StreamState, svc: SessionService)
    returns (error: Option<RunFault>)
    requires e.Valid() && e.net == w.net && svc.faults == w.faults
    modifies e, state, svc
    ensures e.Valid()
    ensures (state.Now(e), svc.View(), error) == RunLoop(w, agent, 0, old(state.Now(e)), old(svc.View()))
  {
    hide Send, RunHooks, EmitOne, RunEvent, Get, Fails;
    var key := state.Key();
    var i := 0;
    while i < |agent.arrivals|
      invariant 0 <= i <= |agent.arrivals| && e.Valid() && key == state.Key()
      invariant RunLoop(w, agent, i, state.Now(e), svc.View())
             == RunLoop(w, agent, 0, old(state.Now(e)), old(svc.View()))
    {
      svc.Store(key, agent.arrivals[i].session);
      match agent.arrivals[i].item {
        case Failure(message) =>
          SendError(e, state, AgentFailed(message, ""));
          return Some(AgentFailed(message, ""));
        case NilEvent =>
        case Yielded(ev) =>
          if ev.errorMessage != "" {
            var fault := AgentFailed(ev.errorMessage, ev.errorCode);
            SendError(e, state, fault);
            return Some(fault);
          }
          var status := state.ProcessEvent(e, w.cfg, svc, ev);
          match status {
            case Stop(fault) =>
              SendError(e, state, fault);
              return Some(fault);
            case Done =>
              return None;
            case Continue =>
          }
      }
      i := i + 1;
    }
    svc.Store(key, agent.final);
    return None;
  }

  /** After the loop: close everything, finish once, persist or clear. */
  method ConcludeRun(w: World, e: Emitter, state: StreamState, svc: SessionService, error: Option<RunFault>,
                     ghost start: Option<Start>)
    returns (handlerErr: Option<RunFault>)
    requires e.Valid() && svc.faults == w.faults
    modifies e, state, svc
    ensures e.Valid()
    ensures Outcome(state.Now(e), svc.View(), handlerErr, start)
         == Conclude(w, old(state.Now(e)), old(svc.View()), error, start)
  {
    hide Send, RunHooks, EmitOne;
    handlerErr := error;
    state.FinalizeLifecycle(e);
    ghost var closed := state.Now(e);
    if !state.runFinalized {
      e.Emit(RunFinished(state.threadId, state.runId, Success));
      state.runFinalized := true;
    }
    assert state.Now(e) == FinishOnce(closed);
    if |state.emittedInterrupts| > 0 {
      var ok := WritePendingInterrupts(svc, state.Key(), RecordsOf(state.emittedInterrupts));
      if !ok {
        handlerErr := Some(SessionUnavailable);
      }
    } else if handlerErr.None? {
      assert RecordsOf(state.emittedInterrupts) == [];
      var ok := WritePendingInterrupts(svc, state.Key(), []);
      if !ok {
        handlerErr := Some(SessionUnavailable);
      }
    }
  }

  /** The handler. `start` is what the agent was started with, if it was. */
  method RunSse(w: World, userId: string, req: Request, agent: Agent, e: Emitter, state: StreamState,
          svc: SessionService)
    returns (handlerErr: Option<RunFault>, start: Option<Start>)
    requires e.Valid() && e.net == w.net && e.offered == [] && svc.faults == w.faults
    requires state.View() == Initial(state.View().run)
    modifies e, state, svc
    ensures e.Valid()
    ensures Outcome(state.Now(e), svc.View(), handlerErr, start)
         == Handle(w, old(state.View().run), userId, req, agent, old(svc.View()))
  {
    hide Send, RunHooks, EmitOne;
    e.Emit(RunStarted(state.threadId, state.runId));
    if e.failed {
      return Some(WriteFailed), None;
    }
    handlerErr, start := AdmitRequest(w, userId, req, agent, e, state, svc);
  }

  method AdmitRequest(w: World, userId: string, req: Request, agent: Agent, e: Emitter, state: StreamState,
          svc: SessionService)
    returns (handlerErr: Option<RunFault>, start: Option<Start>)
    requires e.Valid() && e.net == w.net && svc.faults == w.faults
    modifies e, state, svc
    ensures e.Valid()
    ensures Outcome(state.Now(e), svc.View(), handlerErr, start)
         == Admit(w, userId, req, agent, old(state.Now(e)), old(svc.View()))
  {
    hide Send, RunHooks, EmitOne, Accepted, Get, Ensured, Launch, EmitError;
    var key := SessionKey(userId, state.threadId);
    var pending := LoadPendingInterrupts(svc, key);
    if pending.None? {
      SendError(e, state, PendingCorrupt);
      return Some(PendingCorrupt), None;
    }
    var fault := ValidateResumeAgainstPending(req.resume, pending.value, w.clock, w.now);
    if fault.Some? {
      SendError(e, state, ResumeRejected);
      return Some(ResumeRejected), None;
    }
    state.userId := userId;
    state.reqState := StateOf(req);
    var session := svc.EnsureSessionForSnapshot(key, state.reqState);
    if session.None? {
      SendError(e, state, SessionUnavailable);
      return Some(SessionUnavailable), None;
    }
    handlerErr, start := LaunchRun(w, req, agent, session.value, e, state, svc);
  }

  method LaunchRun(w: World, req: Request, agent: Agent, session: Option<Session>, e: Emitter, state: StreamState,
          svc: SessionService)
    returns (handlerErr: Option<RunFault>, start: Option<Start>)
    requires e.Valid() && e.net == w.net && svc.faults == w.faults && state.reqState == StateOf(req)
    modifies e, state, svc
    ensures e.Valid()
    ensures Outcome(state.Now(e), svc.View(), handlerErr, start)
         == Launch(w, req, agent, session, old(state.Now(e)), old(svc.View()))
  {
    hide Send, RunHooks, EmitOne, RunLoop, Conclude, EmitError;
    var snapshot := BuildStateSnapshot(session, state.reqState);
    if snapshot != map[] {
      e.Emit(StateSnapshot(snapshot));
    }
    var turn: Turn;
    if |req.resume| > 0 {
      var parts := ResumeEntriesToConfirmationContent(req.resume);
      if parts.None? {
        SendError(e, state, BadResume);
        return Some(BadResume), None;
      }
      turn := Answering(parts.value);
    } else {
      if req.message.None? {
        SendError(e, state, BadMessage);
        return Some(BadMessage), None;
      }
      turn := Saying(req.message.value);
    }
    start := Some(Start(state.userId, state.threadId, turn, state.reqState));
    if agent.startError.Some? {
      SendError(e, state, AgentFailed(agent.startError.value, ""));
      return Some(AgentFailed(agent.startError.value, "")), start;
    }
    var error := StreamEvents(w, agent, e, state, svc);
    handlerErr := ConcludeRun(w, e, state, svc, error, start);
  }
}
