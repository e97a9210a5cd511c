/** What a request does, read off the request and the session service: whether it starts the
    agent and with what, and everything its client reads. */
module Requests {
  import opened Values
  import opened Adk
  import opened Protocol
  import opened Launcher
  import opened Emission
  import opened Sessions
  import opened Interrupts
  import opened Persistence
  import opened Resume
  import opened StreamSpec
  import opened RunSpec
  import opened Halting
  import opened Outcomes
  import opened Replica
  import opened Transcript
  import Simulation

  /** The state that a client sends along: an object, or nothing at all. */
  function Given(state: Value): Fields {
    match state
    case Object(fields) => fields
    case _ => map[]
  }

  // ----- the session service before the agent starts

  /** The first lookup finds the session: the one for pending interrupts. */
  predicate FoundFirst(w: World, b: Backend, key: SessionKey) {
    b.configured && !w.faults(b.calls) && key in b.sessions
  }

  /** The second lookup finds it: the one for the run-start snapshot. */
  predicate FoundAgain(w: World, b: Backend, key: SessionKey) {
    b.configured && !w.faults(b.calls + 1) && key in b.sessions
  }

  function StateBefore(w: World, b: Backend, key: SessionKey): Fields {
    if FoundAgain(w, b, key) then b.sessions[key].state else map[]
  }

  /** The service once the session is prepared: it was there, or is created with the given state. */
  function ServiceReady(w: World, b: Backend, key: SessionKey, given: Fields): Backend {
    if !b.configured then b
    else if FoundAgain(w, b, key) then b.(calls := b.calls + 2)
    else if w.faults(b.calls + 2) then b.(calls := b.calls + 3)
    else Backend(true, b.sessions[key := Session(given, [])], b.calls + 3)
  }

  lemma ReadyIsPrepared(w: World, run: RunInfo, userId: string, req: Request, b: Backend)
    ensures var key := SessionKey(userId, run.threadId);
            var (b', session) := Prepared(w, run, userId, req, b);
            && b' == ServiceReady(w, b, key, Given(req.state))
            && (session.None? <==> b.configured && !FoundAgain(w, b, key) && w.faults(b.calls + 2))
            && (session.Some? ==>
                  (session.value == if !b.configured then None
                                    else if FoundAgain(w, b, key) then Some(b.sessions[key])
                                    else Some(Session(Given(req.state), []))))
  {
  }

  // ----- refusals

  /** The records that the request is checked against; None when they do not decode. */
  function RecordsAt(w: World, b: Backend, key: SessionKey): Option<seq<PendingRecord>> {
    if FoundFirst(w, b, key) && "_agui_pending_interrupts" in b.sessions[key].state
    then DecodeRecords(b.sessions[key].state["_agui_pending_interrupts"])
    else Some([])
  }

  /** Why a request is refused; None when it starts the agent. */
  function Refusal(w: World, b: Backend, key: SessionKey, req: Request): Option<RunFault> {
    var records := RecordsAt(w, b, key);
    if records.None? then Some(PendingCorrupt)
    else if !Accepted(req.resume, records.value, w.clock, w.now) then Some(ResumeRejected)
    else if b.configured && !FoundAgain(w, b, key) && w.faults(b.calls + 2) then Some(SessionUnavailable)
    else if req.resume != [] then
      if forall i :: 0 <= i < |req.resume| ==> Decided(req.resume[i]) then None else Some(BadResume)
    else if req.message.None? then Some(BadMessage)
    else None
  }

  /** What starting means: the resume's answers, or the message; and the given state. */
  predicate StartsWith(start: Start, userId: string, threadId: string, req: Request) {
    && start.userId == userId && start.sessionId == threadId && start.delta == Given(req.state)
    && if req.resume == [] then req.message.Some? && start.turn == Saying(req.message.value)
       else start.turn.Answering? && AnswersEntries(start.turn.parts, req.resume)
  }

  lemma TurnIs(req: Request)
    ensures req.resume != [] ==>
              if forall i :: 0 <= i < |req.resume| ==> Decided(req.resume[i])
              then
                && TurnOf(req).Ok? && TurnOf(req).value.Answering?
                && AnswersEntries(TurnOf(req).value.parts, req.resume)
              else TurnOf(req) == Err(BadResume)
    ensures req.resume == [] ==>
              TurnOf(req) == if req.message.Some? then Ok(Saying(req.message.value)) else Err(BadMessage)
  {
    hide Decided, AnswersEntries, Convertible, Confirmations;
    ResumeDelivers(req.resume);
  }

  /** When a request starts the agent, and with what, for a client that is there. */
  lemma StartsUnlessRefused(w: World, run: RunInfo, userId: string, req: Request, agent: Agent, b: Backend)
    requires !Fails(w.net, [RunStarted(run.threadId, run.runId)])
    ensures var o := Handle(w, run, userId, req, agent, b);
            && (o.start.None? <==> Refusal(w, b, SessionKey(userId, run.threadId), req).Some?)
            && (o.start.Some? ==> StartsWith(o.start.value, userId, run.threadId, req))
  {
    hide Handle, Fails, Accepted, Decided, AnswersEntries, TurnOf, Prepared, DecodeRecords;
    StartedIsLaunched(w, run, userId, req, agent, b);
    ReadyIsPrepared(w, run, userId, req, b);
    TurnIs(req);
  }

  /** The run once the request is admitted. */
  function Running(run: RunInfo, userId: string, req: Request): RunInfo {
    RunInfo(run.runId, run.threadId, userId, Given(req.state))
  }

  lemma StartStands(w: World, run: RunInfo, userId: string, req: Request, session: Option<Session>)
    ensures var sys := Offer(Sys(Initial(run), []), RunStarted(run.threadId, run.runId));
            var begun := In("", [RunStarted(run.threadId, run.runId)]);
            && Stands(w.cfg, sys, Place("", 0), begun)
            && Admitted(run, userId, req).st.run == Running(run, userId, req)
            && Stands(w.cfg, Admitted(run, userId, req), Place("", 0), begun)
            && var stored := if session.Some? then session.value.state else map[];
               Stands(w.cfg, OfferState(Snapshot(session, Given(req.state)), Admitted(run, userId, req)), Place("", 0),
                      begun + In("", StateShown(Merged(stored, Given(req.state)))))
  {
    hide Snapshot, Merged;
    var started := RunStarted(run.threadId, run.runId);
    ReadSnoc([], started);
    assert [] + [started] == [started];
    assert Stands(w.cfg, Offer(Sys(Initial(run), []), started), Place("", 0), In("", [started]));
    SnapshotIsMerged(session, Given(req.state));
    StateShows(w.cfg, Snapshot(session, Given(req.state)), Admitted(run, userId, req), Place("", 0), In("", [started]));
  }

  // ----- everything a client reads

  lemma LaunchReads(w: World, req: Request, agent: Agent, session: Option<Session>, sys: Sys, b: Backend,
          lines: seq<Line>)
    requires w.net == Quiet() && NeutralConverter(w.cfg) && TurnOf(req).Ok?
    requires Stands(w.cfg, OfferState(Snapshot(session, StateOf(req)), sys), Place("", 0), lines)
    ensures Read(Launch(w, req, agent, session, sys, b).sys.offered).lines
         == lines + AgentShown(w.cfg, sys.st.run, agent, b.configured && !w.faults(b.calls))
  {
    hide Read, Stands, EmitError, RunLoop, Snapshot, EndingArrival, EndingShown, Finalize, Conclude, LinesUpTo;
    hide NeutralConverter, StateOf, PlaceAt;
    var ready := OfferState(Snapshot(session, StateOf(req)), sys);
    if agent.startError.Some? {
      StandsTells(w.cfg, ready, Place("", 0), lines);
      ErrorShows(AgentFailed(agent.startError.value, ""), ready, lines);
    } else {
      var n := EndingArrival(w.cfg, agent.arrivals, 0);
      NothingShownYet(w.cfg, agent.arrivals, lines);
      LoopShows(w, agent, 0, ready, b, lines);
      var (last, b', error) := RunLoop(w, agent, 0, ready, b);
      ConcludeIs(w, last, b', error,
                 Some(Start(sys.st.run.userId, sys.st.run.threadId, TurnOf(req).value, StateOf(req))));
      var shown := lines + LinesUpTo(w.cfg, agent.arrivals, n);
      if n == |agent.arrivals| {
        ConcludeShows(w.cfg, last, PlaceAt(w.cfg, agent.arrivals, n), shown);
      } else {
        FinishedStays(last);
        assert Tells(last, shown + EndingShown(w.cfg, sys.st.run, FoundThen(w, b, agent.arrivals[n].session),
                                               agent.arrivals[n].item, PlaceAt(w.cfg, agent.arrivals, n)));
      }
    }
  }

  lemma NothingShownYet(cfg: Config, arrivals: seq<Arrival>, lines: seq<Line>)
    ensures lines + LinesUpTo(cfg, arrivals, 0) == lines && PlaceAt(cfg, arrivals, 0) == Place("", 0)
  {
  }

  lemma ConcludeIs(w: World, sys: Sys, b: Backend, error: Option<RunFault>, start: Option<Start>)
    ensures Conclude(w, sys, b, error, start).sys == FinishOnce(Finalize(sys))
  {
    hide Finalize, Persist;
  }

  /** After the last event of a drained agent: everything closed, and the run finished. */
  lemma ConcludeShows(cfg: Config, sys: Sys, place: Place, lines: seq<Line>)
    requires Stands(cfg, sys, place, lines)
    ensures Read(FinishOnce(Finalize(sys)).offered).lines
         == lines + [Line("", RunFinished(sys.st.run.threadId, sys.st.run.runId, Success))]
  {
    hide Read, Finalize;
    FinalizeStands(cfg, sys, place, lines);
    var closed := Finalize(sys);
    ReadSnoc(closed.offered, RunFinished(sys.st.run.threadId, sys.st.run.runId, Success));
  }

  /** A run that has ended reads nothing more. */
  lemma FinishedStays(sys: Sys)
    requires sys.st.finalized && Read(sys.offered).step == sys.st.step
    ensures Read(FinishOnce(Finalize(sys)).offered).lines == Read(sys.offered).lines
  {
    hide Read, CloseText, CloseReasoning;
    CloseTextUnread(sys);
    CloseReasoningUnread(CloseText(sys));
    var closed := CloseReasoning(CloseText(sys));
    ReadSnoc(closed.offered, StepFinished(closed.st.step));
  }

  /** The whole transcript of a request that starts the agent. In order, and each line in the
      step of its event's author: the run's start, the stored state overridden by the given
      one, then event by event each new piece of a partial event's thoughts and texts, each
      call with its arguments, each result with its text, the converter's own events, the
      state delta; and at last how the run ends: finished, an agent's error as it was
      reported, a part that fails, or a question with the snapshots it comes with. */
  lemma RequestReads(w: World, run: RunInfo, userId: string, req: Request, agent: Agent, b: Backend)
    requires w.net == Quiet() && NeutralConverter(w.cfg)
    requires Handle(w, run, userId, req, agent, b).start.Some?
    ensures var key, given := SessionKey(userId, run.threadId), Given(req.state);
            var ready := ServiceReady(w, b, key, given);
            Read(Handle(w, run, userId, req, agent, b).sys.offered).lines
            == [Line("", RunStarted(run.threadId, run.runId))] +
               In("", StateShown(Merged(StateBefore(w, b, key), given))) +
               AgentShown(w.cfg, Running(run, userId, req), agent, ready.configured && !w.faults(ready.calls))
  {
    hide Handle, Launch, Prepared, Read, Stands, Snapshot, Merged, AgentShown, StateShown, TurnOf;
    var key, given := SessionKey(userId, run.threadId), Given(req.state);
    StartedIsLaunched(w, run, userId, req, agent, b);
    ReadyIsPrepared(w, run, userId, req, b);
    var (b', session) := Prepared(w, run, userId, req, b);
    StartStands(w, run, userId, req, session.value);
    SameMerged(session.value, StateBefore(w, b, key), given);
    LaunchReads(w, req, agent, session.value, Admitted(run, userId, req), b',
                In("", [RunStarted(run.threadId, run.runId)]) +
                In("", StateShown(Merged(StateBefore(w, b, key), given))));
    assert In("", [RunStarted(run.threadId, run.runId)]) == [Line("", RunStarted(run.threadId, run.runId))];
  }

  /** A session created with the given state shows no more than that state. */
  lemma SameMerged(session: Option<Session>, before: Fields, given: Fields)
    requires session.Some? ==> session.value.state == before || (session.value.state == given && before == map[])
    requires session.None? ==> before == map[]
    ensures Merged(if session.Some? then session.value.state else map[], given) == Merged(before, given)
  {
  }

  /** An agent that does not come up leaves the service as it was prepared: a session that
      was not there is created with the given state. */
  lemma StartErrorLeaves(w: World, run: RunInfo, userId: string, req: Request, agent: Agent, b: Backend)
    requires Handle(w, run, userId, req, agent, b).start.Some? && agent.startError.Some?
    ensures var key, given := SessionKey(userId, run.threadId), Given(req.state);
            var o := Handle(w, run, userId, req, agent, b);
            && o.backend == ServiceReady(w, b, key, given)
            && (b.configured && !FoundAgain(w, b, key) ==> o.backend.sessions == b.sessions[key := Session(given, [])])
  {
    hide Handle, Prepared, EmitError, Snapshot, TurnOf;
    StartedIsLaunched(w, run, userId, req, agent, b);
    ReadyIsPrepared(w, run, userId, req, b);
  }

  /** A refused request: its client reads the start, the snapshot only if the session was
      prepared, and the error that says why; no session is stored but the prepared one. */
  lemma RefusalReads(w: World, run: RunInfo, userId: string, req: Request, agent: Agent, b: Backend)
    requires w.net == Quiet()
    requires Refusal(w, b, SessionKey(userId, run.threadId), req).Some?
    ensures var key, given := SessionKey(userId, run.threadId), Given(req.state);
            var o, fault := Handle(w, run, userId, req, agent, b), Refusal(w, b, key, req).value;
            var prepared := fault.BadResume? || fault.BadMessage?;
            && o.start.None? && o.error == Some(fault)
            && Read(o.sys.offered).lines
               == [Line("", RunStarted(run.threadId, run.runId))] +
                  (if prepared then In("", StateShown(Merged(StateBefore(w, b, key), given))) else []) +
                  [Line("", RunError(run.runId, fault))]
            && o.backend.sessions == (if prepared then ServiceReady(w, b, key, given) else b).sessions
  {
    hide Read, Stands, Snapshot, Merged, EmitError, StateShown, TurnOf, Accepted, DecodeRecords, RunLoop, Conclude;
    hide Decided, In;
    var key, given := SessionKey(userId, run.threadId), Given(req.state);
    var fault := Refusal(w, b, key, req).value;
    var (b', session) := Prepared(w, run, userId, req, b);
    var sys := Offer(Sys(Initial(run), []), RunStarted(run.threadId, run.runId));
    var admitted := Admitted(run, userId, req);
    var begun := In("", [RunStarted(run.threadId, run.runId)]);
    QuietSends(sys.offered);
    ReadyIsPrepared(w, run, userId, req, b);
    TurnIs(req);
    StartStands(w, run, userId, req, if session.Some? then session.value else None);
    assert begun == [Line("", RunStarted(run.threadId, run.runId))] by {
      OneIn(RunStarted(run.threadId, run.runId));
    }
    assert begun + [] == begun;
    StandsTells(w.cfg, sys, Place("", 0), begun);
    StandsTells(w.cfg, admitted, Place("", 0), begun);
    ErrorShows(fault, sys, begun);
    ErrorShows(fault, admitted, begun);
    if fault.BadResume? || fault.BadMessage? {
      var ready := OfferState(Snapshot(session.value, given), admitted);
      SameMerged(session.value, StateBefore(w, b, key), given);
      var lines := begun + In("", StateShown(Merged(StateBefore(w, b, key), given)));
      StandsTells(w.cfg, ready, Place("", 0), lines);
      ErrorShows(fault, ready, lines);
    }
  }

  lemma OneIn(ev: AgEvent)
    ensures In("", [ev]) == [Line("", ev)]
  {
  }

  // ----- the client's document at the start

  /** After the run-start snapshot a client holds, of every key that is not the launcher's,
      the value given by the request, or else the stored one. */
  lemma StartDocument(w: World, run: RunInfo, userId: string, req: Request, agent: Agent, b: Backend) returns (k: nat)
    requires w.net == Quiet() && Handle(w, run, userId, req, agent, b).start.Some?
    ensures var key, given := SessionKey(userId, run.threadId), Given(req.state);
            var trace, doc := Handle(w, run, userId, req, agent, b).sys.offered, Merged(StateBefore(w, b, key), given);
            && k == (if doc == map[] then 1 else 2) && k <= |trace| && Mirror(trace[..k]) == Some(doc)
            && trace[0] == RunStarted(run.threadId, run.runId) && (k == 2 ==> trace[1] == StateSnapshot(doc))
            && (forall name :: name in given && !("_agui_" <= name) ==> name in doc && doc[name] == given[name])
  {
    hide Handle, Launch, Prepared, Snapshot, Mirror, TurnOf;
    var key, given := SessionKey(userId, run.threadId), Given(req.state);
    StartedIsLaunched(w, run, userId, req, agent, b);
    ReadyIsPrepared(w, run, userId, req, b);
    var (b', session) := Prepared(w, run, userId, req, b);
    var sys, doc := Admitted(run, userId, req), Merged(StateBefore(w, b, key), given);
    SnapshotIsMerged(session.value, given);
    SameMerged(session.value, StateBefore(w, b, key), given);
    var ready := OfferState(doc, sys);
    LaunchExtends(w, req, agent, session.value, sys, b');
    k := if doc == map[] then 1 else 2;
    EmptyMirror();
    MirrorSnoc([], RunStarted(run.threadId, run.runId));
    assert [] + [RunStarted(run.threadId, run.runId)] == sys.offered;
    MirrorSnoc(sys.offered, StateSnapshot(doc));
    assert Handle(w, run, userId, req, agent, b).sys.offered[..k] == ready.offered;
  }

  lemma LaunchExtends(w: World, req: Request, agent: Agent, session: Option<Session>, sys: Sys, b: Backend)
    requires TurnOf(req).Ok?
    ensures OfferState(Snapshot(session, StateOf(req)), sys).offered
         <= Launch(w, req, agent, session, sys, b).sys.offered
  {
    hide EmitError, RunLoop, Conclude, Snapshot, TurnOf;
    var ready := OfferState(Snapshot(session, StateOf(req)), sys);
    if agent.startError.Some? {
      Simulation.ErrorGrows(AgentFailed(agent.startError.value, ""), ready);
    } else {
      Simulation.LoopGrows(w, agent, 0, ready, b);
      var (last, b', error) := RunLoop(w, agent, 0, ready, b);
      Simulation.ConcludeGrows(w, last, b', error,
                               Some(Start(sys.st.run.userId, sys.st.run.threadId, TurnOf(req).value, StateOf(req))));
    }
  }

  /** A client that is gone before RunStarted: nothing is looked up, stored or started. */
  lemma GoneClientChangesNothing(w: World, run: RunInfo, userId: string, req: Request, agent: Agent, b: Backend)
    requires Fails(w.net, [RunStarted(run.threadId, run.runId)])
    ensures var o := Handle(w, run, userId, req, agent, b);
            && o.backend == b && o.start.None? && o.error == Some(WriteFailed)
            && o.sys.offered == [RunStarted(run.threadId, run.runId)]
  {
    hide Fails, Admit;
    assert Offer(Sys(Initial(run), []), RunStarted(run.threadId, run.runId)).offered
        == [RunStarted(run.threadId, run.runId)];
  }

  // ----- what is stored at the end

  /** The session with these pending records: the rest of its state stays, and the event that
      sets them joins its history. */
  function Noted(session: Session, records: seq<PendingRecord>): Session {
    Session(session.state["_agui_pending_interrupts" := Pending(records)],
            session.history + [Some(Event("", "agui", false, None, [("_agui_pending_interrupts", Pending(records))],
                                          false, "", "", 0))])
  }

  /** Storing records: no call at all without a service, else a lookup and an append, each of
      which may fail; it succeeds exactly when neither does and the session is there. */
  lemma PersistIs(faults: Faults, b: Backend, key: SessionKey, records: seq<PendingRecord>)
    ensures var (b', ok), found := Persist(faults, b, key, records), !faults(b.calls) && key in b.sessions;
            && (!b.configured ==> b' == b && ok)
            && (b.configured ==>
                  && (ok <==> found && !faults(b.calls + 1))
                  && b'.configured && b'.calls == b.calls + (if found then 2 else 1)
                  && b'.sessions == (if ok then b.sessions[key := Noted(b.sessions[key], records)] else b.sessions))
  {
    var delta := PersistEvent(records).delta;
    assert delta[..0] == [];
    assert MapOf(delta) == map["_agui_pending_interrupts" := Pending(records)];
    if key in b.sessions {
      var state := b.sessions[key].state;
      assert Override(state, MapOf(delta)) == state["_agui_pending_interrupts" := Pending(records)];
    }
  }

  /** The records a run leaves: for the confirmation call that ended it, under its id, or none. */
  function RecordsLeft(cfg: Config, agent: Agent): seq<PendingRecord> {
    if Paused(cfg, agent)
    then [PendingRecord(Asked(cfg, agent).id, "tool_call", "", ConfirmationSchema())] else []
  }

  /** What a request that runs the agent leaves in the service, for a client that stays: the
      session as the runner stored it at the ending arrival, with the new records if the run
      asked or drained the agent and storing works; and exactly then it returns no error. */
  lemma RequestStores(w: World, run: RunInfo, userId: string, req: Request, agent: Agent, b: Backend)
    requires w.net == Quiet() && agent.startError.None? && Handle(w, run, userId, req, agent, b).start.Some?
    ensures var key, o := SessionKey(userId, run.threadId), Handle(w, run, userId, req, agent, b);
            var ready, n := ServiceReady(w, b, key, Given(req.state)), Survived(w.cfg, agent);
            var session := if n < |agent.arrivals| then agent.arrivals[n].session else agent.final;
            var calls := ready.calls + (if Paused(w.cfg, agent) && userId != "" then 1 else 0);
            var settles := n == |agent.arrivals| || Paused(w.cfg, agent);
            var stores := !w.faults(calls) && !w.faults(calls + 1);
            && (o.error.None? <==> settles && (!b.configured || stores))
            && o.backend.sessions ==
               if !b.configured then b.sessions
               else
                 ready.sessions[key := if settles && stores then Noted(session, RecordsLeft(w.cfg, agent)) else session]
  {
    hide Handle, Launch, Prepared, ServiceReady, Noted, Paused, EndingArrival, TurnOf;
    StartedIsLaunched(w, run, userId, req, agent, b);
    ReadyIsPrepared(w, run, userId, req, b);
    ReadyConfigured(w, b, SessionKey(userId, run.threadId), Given(req.state));
    var (b', session) := Prepared(w, run, userId, req, b);
    LaunchStores(w, req, agent, session.value, Admitted(run, userId, req), b');
  }

  lemma LaunchStores(w: World, req: Request, agent: Agent, session: Option<Session>, sys: Sys, b: Backend)
    requires w.net == Quiet() && agent.startError.None? && TurnOf(req).Ok? && sys.st.interrupts == []
    ensures var key, o, n := KeyOf(sys.st.run), Launch(w, req, agent, session, sys, b), Survived(w.cfg, agent);
            var left := if n < |agent.arrivals| then agent.arrivals[n].session else agent.final;
            var calls := b.calls + (if Paused(w.cfg, agent) && sys.st.run.userId != "" then 1 else 0);
            var settles := n == |agent.arrivals| || Paused(w.cfg, agent);
            var stores := !w.faults(calls) && !w.faults(calls + 1);
            && (o.error.None? <==> settles && (!b.configured || stores))
            && o.backend.sessions ==
               if !b.configured then b.sessions
               else b.sessions[key := if settles && stores then Noted(left, RecordsLeft(w.cfg, agent)) else left]
  {
    hide RunLoop, Conclude, EmitError, EndingArrival, Noted, Snapshot, TurnOf, PausesAt, AskedIn;
    hide RecordsOf, RecordsLeft;
    var ready := OfferState(Snapshot(session, StateOf(req)), sys);
    LoopEnds(w, agent, 0, ready, b);
    LoopKeepsRun(w, agent, 0, ready, b);
    var (last, left, error) := RunLoop(w, agent, 0, ready, b);
    LoopLeavesIs(w.cfg, sys.st.run, agent, b);
    RecordsLeftAre(w.cfg, agent);
    var start := Some(Start(sys.st.run.userId, sys.st.run.threadId, TurnOf(req).value, StateOf(req)));
    ConcludeStores(w, last, left, error, start);
  }

  lemma ConcludeStores(w: World, sys: Sys, b: Backend, error: Option<RunFault>, start: Option<Start>)
    requires b.configured ==> KeyOf(sys.st.run) in b.sessions
    ensures var key, o := KeyOf(sys.st.run), Conclude(w, sys, b, error, start);
            var stores := !w.faults(b.calls) && !w.faults(b.calls + 1);
            && (o.error.None? <==> error.None? && (!b.configured || stores))
            && o.backend.sessions ==
               if b.configured && stores && (sys.st.interrupts != [] || error.None?)
               then b.sessions[key := Noted(b.sessions[key], RecordsOf(sys.st.interrupts))] else b.sessions
  {
    hide Finalize, Persist, Noted, RecordsOf;
    FinalizeKeeps(sys);
    PersistIs(w.faults, b, KeyOf(sys.st.run), RecordsOf(sys.st.interrupts));
  }

  lemma ReadyConfigured(w: World, b: Backend, key: SessionKey, given: Fields)
    ensures ServiceReady(w, b, key, given).configured == b.configured
    ensures !b.configured ==> ServiceReady(w, b, key, given) == b
  {
  }

  lemma RecordsLeftAre(cfg: Config, agent: Agent)
    ensures RecordsOf(if Paused(cfg, agent) then [Asked(cfg, agent)] else []) == RecordsLeft(cfg, agent)
  {
    hide Paused, EndingPart, PausesIn;
  }

  lemma LoopLeavesIs(cfg: Config, run: RunInfo, agent: Agent, b: Backend)
    requires agent.startError.None?
    ensures var n, left := Survived(cfg, agent), LoopLeaves(cfg, run, agent, Survived(cfg, agent), b);
            var session := if n < |agent.arrivals| then agent.arrivals[n].session else agent.final;
            && left.configured == b.configured
            && left.sessions == (if b.configured then b.sessions[KeyOf(run) := session] else b.sessions)
            && left.calls == b.calls + (if b.configured && Paused(cfg, agent) && run.userId != "" then 1 else 0)
  {
    hide EndingArrival, PausesAt;
  }
}
