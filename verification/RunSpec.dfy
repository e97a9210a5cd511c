/** One /run_sse request from the SSE commitment point on (agui/agui.go), as a function
    of the request, the agent's behaviour and the session service. */
module RunSpec {
  import opened Values
  import opened Adk
  import opened Protocol
  import opened Launcher
  import opened Emission
  import opened Sessions
  import opened Interrupts
  import opened Persistence
  import opened Resume
  import opened StreamSpec

  /** The parts of RunAgentInput that the handler reads after the commitment point;
      `message` is the latest user turn, None when there is no usable one. */
  datatype Request = Request(resume: seq<ResumeEntry>, state: Value, message: Option<Content>)

  /** Everything outside the launcher that one request meets. */
  datatype World = World(cfg: Config, net: Net, faults: Faults, clock: Clock, now: int)

  /** What the agent is started with: answers to confirmation calls, or a user turn. */
  datatype Turn = Answering(parts: seq<Confirmation>) | Saying(content: Content)

  datatype Start = Start(userId: string, sessionId: string, turn: Turn, delta: Fields)

  /** How a request ends: the run, the session service, the handler's error and, if the
      agent was started, what it was started with. */
  datatype Outcome = Outcome(sys: Sys, backend: Backend, error: Option<RunFault>, start: Option<Start>)

  function StateOf(req: Request): Fields {
    if req.state.Object? then req.state.fields else map[]
  }

  function EmitError(fault: RunFault, sys: Sys): Sys {
    if sys.st.finalized then sys
    else
      var closed := Finalize(sys);
      Offer(closed, RunError(closed.st.run.runId, fault)).(st := closed.st.(finalized := true))
  }

  function Exit(fault: RunFault, sys: Sys, b: Backend, start: Option<Start>): Outcome {
    Outcome(EmitError(fault, sys), b, Some(fault), start)
  }

  /** Open interrupts of a session: none when it cannot be loaded; None when they do not decode. */
  function PendingOf(found: Lookup): Option<seq<PendingRecord>> {
    if found.Loaded? && PENDING_KEY in found.session.state then DecodeRecords(found.session.state[PENDING_KEY])
    else Some([])
  }

  function PersistEvent(records: seq<PendingRecord>): Event {
    Event("", "agui", false, None, [(PENDING_KEY, Pending(records))], false, "", "", 0)
  }

  /** writePendingInterruptsState; false is an error. */
  function Persist(faults: Faults, b: Backend, key: SessionKey, records: seq<PendingRecord>): (Backend, bool) {
    match Get(faults, b, key)
    case Unconfigured => (b, true)
    case NotLoaded => (Called(b), false)
    case Loaded(session) => Append(faults, Called(b), key, session, PersistEvent(records))
  }

  /** The loop over the agent's events; what the runner stored so far is already visible. */
  function RunLoop(w: World, agent: Agent, i: nat, sys: Sys, b: Backend): (Sys, Backend, Option<RunFault>)
    requires i <= |agent.arrivals|
    decreases |agent.arrivals| - i
  {
    var key := KeyOf(sys.st.run);
    if i == |agent.arrivals| then (sys, Put(b, key, agent.final), None)
    else
      var b' := Put(b, key, agent.arrivals[i].session);
      match agent.arrivals[i].item
      case Failure(message) =>
        (EmitError(AgentFailed(message, ""), sys), b', Some(AgentFailed(message, "")))
      case NilEvent => RunLoop(w, agent, i + 1, sys, b')
      case Yielded(ev) =>
        if ev.errorMessage != "" then
          var fault := AgentFailed(ev.errorMessage, ev.errorCode);
          (EmitError(fault, sys), b', Some(fault))
        else
          var (next, status) := RunEvent(w.cfg, w.net, LookupOption(Get(w.faults, b', key)), ev, sys);
          match status
          case Stop(fault) => (EmitError(fault, next), b', Some(fault))
          case Done => (next, AfterPart(b', sys.st.run.userId, status), None)
          case Continue => RunLoop(w, agent, i + 1, next, b')
  }

  function FinishOnce(sys: Sys): Sys {
    if sys.st.finalized then sys
    else Offer(sys, RunFinished(sys.st.run.threadId, sys.st.run.runId, Success)).(st := sys.st.(finalized := true))
  }

  /** The end of the handler: close, finish once, then persist or clear the pending interrupts. */
  function Conclude(w: World, sys: Sys, b: Backend, error: Option<RunFault>, start: Option<Start>): Outcome {
    var last := FinishOnce(Finalize(sys));
    if last.st.interrupts != [] || error.None? then
      var (b', ok) := Persist(w.faults, b, KeyOf(last.st.run), RecordsOf(last.st.interrupts));
      Outcome(last, b', if ok then error else Some(SessionUnavailable), start)
    else Outcome(last, b, error, start)
  }

  /** The turn a request asks for, or why there is none. */
  function TurnOf(req: Request): Result<Turn, RunFault> {
    if req.resume != [] then
      if Convertible(req.resume) then Ok(Answering(Confirmations(req.resume))) else Err(BadResume)
    else if req.message.Some? then Ok(Saying(req.message.value))
    else Err(BadMessage)
  }

  /** From the run-start snapshot on: the session is there and the request was accepted. */
  function Launch(w: World, req: Request, agent: Agent, session: Option<Session>, sys: Sys, b: Backend): Outcome {
    var ready := OfferState(Snapshot(session, StateOf(req)), sys);
    match TurnOf(req)
    case Err(fault) => Exit(fault, ready, b, None)
    case Ok(turn) =>
      var start := Some(Start(sys.st.run.userId, sys.st.run.threadId, turn, StateOf(req)));
      if agent.startError.Some? then Exit(AgentFailed(agent.startError.value, ""), ready, b, start)
      else
        var (last, b', error) := RunLoop(w, agent, 0, ready, b);
        Conclude(w, last, b', error, start)
  }

  /** After RunStarted: load what is pending, check the resume, prepare the session. */
  function Admit(w: World, userId: string, req: Request, agent: Agent, sys: Sys, b: Backend): Outcome {
    var key := SessionKey(userId, sys.st.run.threadId);
    var pending := PendingOf(Get(w.faults, b, key));
    if pending.None? then Exit(PendingCorrupt, sys, Called(b), None)
    else if !Accepted(req.resume, pending.value, w.clock, w.now) then Exit(ResumeRejected, sys, Called(b), None)
    else
      var admitted := sys.(st := sys.st.(run := sys.st.run.(userId := userId, reqState := StateOf(req))));
      var (b', session) := Ensured(w.faults, Called(b), key, StateOf(req));
      if session.None? then Exit(SessionUnavailable, admitted, b', None)
      else Launch(w, req, agent, session.value, admitted, b')
  }

  /** The whole request. */
  function Handle(w: World, run: RunInfo, userId: string, req: Request, agent: Agent, b: Backend): Outcome {
    var sys := Offer(Sys(Initial(run), []), RunStarted(run.threadId, run.runId));
    if Fails(w.net, sys.offered) then Outcome(sys, b, Some(WriteFailed), None)
    else Admit(w, userId, req, agent, sys, b)
  }
}
