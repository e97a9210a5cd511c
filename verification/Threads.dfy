/** The interrupt protocol over a whole thread: what is pending between requests, and
    when the agent may run. */
module Threads {
  import opened Values
  import opened Adk
  import opened Protocol
  import opened Emission
  import opened Sessions
  import opened Interrupts
  import opened Persistence
  import opened Resume
  import opened Acceptance
  import Schema
  import opened StreamSpec
  import opened RunSpec
  import opened Halting
  import opened Outcomes

  /** One request on some thread of some user. `reencoded` says whether the service turned
      the stored session into JSON and back since the previous request. */
  datatype Visit = Visit(world: World, runId: string, key: SessionKey, req: Request, agent: Agent, reencoded: bool)

  function JsonSession(s: Session): Session {
    s.(state := map k | k in s.state :: JsonForm(s.state[k]))
  }

  /** The service as the request finds it. */
  function Found(v: Visit, b: Backend): Backend {
    if v.reencoded && v.key in b.sessions then b.(sessions := b.sessions[v.key := JsonSession(b.sessions[v.key])])
    else b
  }

  function Serve(v: Visit, b: Backend): Outcome {
    Handle(v.world, RunInfo(v.runId, v.key.id, "", map[]), v.key.user, v.req, v.agent, Found(v, b))
  }

  /** The service after a sequence of requests, one at a time. */
  function After(visits: seq<Visit>, b: Backend): Backend {
    if visits == [] then b
    else Serve(visits[|visits| - 1], After(visits[..|visits| - 1], b)).backend
  }

  function OutcomeOf(visits: seq<Visit>, b: Backend): Outcome
    requires visits != []
  {
    Serve(visits[|visits| - 1], After(visits[..|visits| - 1], b))
  }

  function StoredPending(state: Fields): Option<Value> {
    if PENDING_KEY in state then Some(state[PENDING_KEY]) else None
  }

  function PendingAt(b: Backend, key: SessionKey): Option<Value> {
    if key in b.sessions then StoredPending(b.sessions[key].state) else None
  }

  /** A reliable service, and neither client nor agent touching the launcher's key. */
  ghost predicate Behaved(v: Visit, b: Backend) {
    && (forall n :: !v.world.faults(n))
    && !HasInternalKey(StateOf(v.req))
    && KeepsPending(v.agent, PendingAt(Found(v, b), v.key))
  }

  predicate KeepsPending(agent: Agent, pending: Option<Value>) {
    && (forall i :: 0 <= i < |agent.arrivals| ==> StoredPending(agent.arrivals[i].session.state) == pending)
    && StoredPending(agent.final.state) == pending
  }

  /** The requests on one thread of one user behave; nothing is asked of those on other
      threads or of other users in between. */
  ghost predicate Legal(key: SessionKey, visits: seq<Visit>, b: Backend) {
    visits != [] ==>
      var front, last := visits[..|visits| - 1], visits[|visits| - 1];
      Legal(key, front, b) && (last.key == key ==> Behaved(last, After(front, b)))
  }

  // ----- one request

  predicate Ready(b: Backend, key: SessionKey, pending: Option<Value>) {
    b.configured && key in b.sessions && PendingAt(b, key) == pending
  }

  lemma {:induction false} LoopKeeps(w: World, agent: Agent, i: nat, sys: Sys, b: Backend, pending: Option<Value>)
    requires i <= |agent.arrivals|
    requires Ready(b, KeyOf(sys.st.run), pending) && KeepsPending(agent, pending)
    ensures Ready(RunLoop(w, agent, i, sys, b).1, KeyOf(sys.st.run), pending)
    decreases |agent.arrivals| - i
  {
    hide RunEvent, EmitError;
    if i < |agent.arrivals| {
      var b' := Put(b, KeyOf(sys.st.run), agent.arrivals[i].session);
      match agent.arrivals[i].item
      case Failure(_) =>
      case NilEvent => LoopKeeps(w, agent, i + 1, sys, b', pending);
      case Yielded(ev) =>
        if ev.errorMessage == "" {
          var stored := LookupOption(Get(w.faults, b', KeyOf(sys.st.run)));
          EventKeeps(w.cfg, w.net, stored, ev, sys);
          var (next, status) := RunEvent(w.cfg, w.net, stored, ev, sys);
          if status.Continue? {
            LoopKeeps(w, agent, i + 1, next, b', pending);
          }
        }
    }
  }

  /** The pending value a request leaves behind: what it emitted, nothing after success,
      and what was there before after any other error. */
  function LeftPending(o: Outcome, before: Option<Value>): Option<Value> {
    if o.sys.st.interrupts != [] || o.error.None? then Some(Pending(RecordsOf(o.sys.st.interrupts))) else before
  }

  predicate Settled(o: Outcome, key: SessionKey, before: Option<Value>) {
    o.backend.configured && PendingAt(o.backend, key) == LeftPending(o, before)
  }

  lemma ConcludeSettles(w: World, sys: Sys, b: Backend, error: Option<RunFault>, start: Option<Start>,
          pending: Option<Value>)
    requires Ready(b, KeyOf(sys.st.run), pending) && (forall n :: !w.faults(n))
    requires error.Some? ==> sys.st.interrupts == []
    ensures Settled(Conclude(w, sys, b, error, start), KeyOf(sys.st.run), pending)
  {
    hide Finalize;
    FinalizeKeeps(sys);
    var records := RecordsOf(sys.st.interrupts);
    assert PersistEvent(records).delta[..0] == [];
    assert MapOf(PersistEvent(records).delta) == map[PENDING_KEY := Pending(records)];
  }

  lemma LaunchSettles(w: World, req: Request, agent: Agent, session: Option<Session>, sys: Sys, b: Backend,
          pending: Option<Value>)
    requires Ready(b, KeyOf(sys.st.run), pending) && (forall n :: !w.faults(n))
    requires KeepsPending(agent, pending) && sys.st.interrupts == []
    ensures Settled(Launch(w, req, agent, session, sys, b), KeyOf(sys.st.run), pending)
  {
    hide EmitError, RunLoop, Conclude;
    var ready := OfferState(Snapshot(session, StateOf(req)), sys);
    match TurnOf(req)
    case Err(fault) => ErrorKeeps(fault, ready);
    case Ok(turn) =>
      if agent.startError.Some? {
        ErrorKeeps(AgentFailed(agent.startError.value, ""), ready);
      } else {
        LoopKeeps(w, agent, 0, ready, b, pending);
        LoopKeepsRun(w, agent, 0, ready, b);
        var (last, b', error) := RunLoop(w, agent, 0, ready, b);
        var start := Some(Start(sys.st.run.userId, sys.st.run.threadId, turn, StateOf(req)));
        ConcludeSettles(w, last, b', error, start, pending);
      }
  }

  lemma EnsuredReady(faults: Faults, b: Backend, key: SessionKey, state: Fields)
    requires b.configured && (forall n :: !faults(n)) && !HasInternalKey(state)
    ensures var (b', session) := Ensured(faults, b, key, state);
            session.Some? && Ready(b', key, PendingAt(b, key))
  {
    assert StoredPending(state).None? by {
      if PENDING_KEY in state {
        assert IsInternalKey(PENDING_KEY);
      }
    }
  }

  /** The records that a request is checked against. */
  function CheckedAgainst(v: Visit, b: Backend): Option<seq<PendingRecord>> {
    PendingOf(Get(v.world.faults, Found(v, b), v.key))
  }

  /** The client is still there once the run has been announced. */
  predicate Announced(v: Visit) {
    !Fails(v.world.net, [RunStarted(v.key.id, v.runId)])
  }

  function PreparedFor(v: Visit, b: Backend): Option<Option<Session>> {
    Prepared(v.world, RunInfo(v.runId, v.key.id, "", map[]), v.key.user, v.req, Found(v, b)).1
  }

  /** Exactly when a request starts the agent, and as what, whatever writes and whatever
      calls to the service fail. */
  lemma {:induction false} ServeStarts(v: Visit, b: Backend)
    ensures var start, records := Serve(v, b).start, CheckedAgainst(v, b);
            && (start.Some? <==>
                  && Announced(v) && records.Some?
                  && Accepted(v.req.resume, records.value, v.world.clock, v.world.now)
                  && PreparedFor(v, b).Some? && TurnOf(v.req).Ok?)
            && (start.Some? ==>
                  start.value == Start(v.key.user, v.key.id, TurnOf(v.req).value, StateOf(v.req)))
  {
    hide Handle, Prepared, Accepted, PendingOf, Fails, TurnOf, Found;
    StartedIsLaunched(v.world, RunInfo(v.runId, v.key.id, "", map[]), v.key.user, v.req, v.agent, Found(v, b));
  }

  lemma AdmitSettles(w: World, userId: string, req: Request, agent: Agent, sys: Sys, b: Backend)
    requires b.configured && (forall n :: !w.faults(n)) && !HasInternalKey(StateOf(req)) && sys.st.interrupts == []
    requires KeepsPending(agent, PendingAt(b, SessionKey(userId, sys.st.run.threadId)))
    ensures var o, key := Admit(w, userId, req, agent, sys, b), SessionKey(userId, sys.st.run.threadId);
            Settled(o, key, PendingAt(b, key))
  {
    hide Launch, EmitError, Ensured, HasInternalKey, TurnOf, Accepted, PendingOf, KeepsPending;
    var key := SessionKey(userId, sys.st.run.threadId);
    ErrorKeeps(PendingCorrupt, sys);
    ErrorKeeps(ResumeRejected, sys);
    EnsuredReady(w.faults, Called(b), key, StateOf(req));
    assert PendingAt(Called(b), key) == PendingAt(b, key);
    var (b', session) := Ensured(w.faults, Called(b), key, StateOf(req));
    var admitted := sys.(st := sys.st.(run := sys.st.run.(userId := userId, reqState := StateOf(req))));
    assert KeyOf(admitted.st.run) == key;
    LaunchSettles(w, req, agent, session.value, admitted, b', PendingAt(b, key));
  }

  /** One request to a reliable service: what it leaves pending, whatever writes fail. */
  lemma {:induction false} ServeSettles(v: Visit, b: Backend)
    requires b.configured && Behaved(v, b)
    ensures Settled(Serve(v, b), v.key, PendingAt(Found(v, b), v.key)) && PreparedFor(v, b).Some?
  {
    hide Admit, Fails, HasInternalKey, KeepsPending, PendingOf, JsonSession, Ensured;
    var w, found := v.world, Found(v, b);
    var sys := Offer(Sys(Initial(RunInfo(v.runId, v.key.id, "", map[])), []), RunStarted(v.key.id, v.runId));
    AdmitSettles(w, v.key.user, v.req, v.agent, sys, found);
    EnsuredReady(w.faults, Called(found), v.key, StateOf(v.req));
  }

  /** A request records nothing, or the interrupt for the confirmation call that ended it. */
  lemma {:induction false} ServeRecords(v: Visit, b: Backend)
    ensures var interrupts := Serve(v, b).sys.st.interrupts;
            interrupts == [] || (Paused(v.world.cfg, v.agent) && interrupts == [Asked(v.world.cfg, v.agent)])
  {
    hide Handle, Paused, Found;
    RunKeepsIds(v.world, RunInfo(v.runId, v.key.id, "", map[]), v.key.user, v.req, v.agent, Found(v, b));
  }

  // ----- other threads and other users

  /** The session under a key, and whether there is a service, are as before. */
  predicate Untouched(b: Backend, b': Backend, key: SessionKey) {
    && b'.configured == b.configured
    && (key in b'.sessions <==> key in b.sessions)
    && (key in b.sessions ==> b'.sessions[key] == b.sessions[key])
  }

  lemma {:induction false} LoopElsewhere(w: World, agent: Agent, i: nat, sys: Sys, b: Backend, key: SessionKey)
    requires i <= |agent.arrivals| && KeyOf(sys.st.run) != key
    ensures Untouched(b, RunLoop(w, agent, i, sys, b).1, key)
    decreases |agent.arrivals| - i
  {
    hide RunEvent, EmitError;
    if i < |agent.arrivals| {
      var b' := Put(b, KeyOf(sys.st.run), agent.arrivals[i].session);
      match agent.arrivals[i].item
      case Failure(_) =>
      case NilEvent => LoopElsewhere(w, agent, i + 1, sys, b', key);
      case Yielded(ev) =>
        if ev.errorMessage == "" {
          var stored := LookupOption(Get(w.faults, b', KeyOf(sys.st.run)));
          EventKeeps(w.cfg, w.net, stored, ev, sys);
          var (next, status) := RunEvent(w.cfg, w.net, stored, ev, sys);
          if status.Continue? {
            LoopElsewhere(w, agent, i + 1, next, b', key);
          }
        }
    }
  }

  lemma ConcludeElsewhere(w: World, sys: Sys, b: Backend, error: Option<RunFault>, start: Option<Start>,
          key: SessionKey)
    requires KeyOf(sys.st.run) != key
    ensures Untouched(b, Conclude(w, sys, b, error, start).backend, key)
  {
    hide Finalize;
    FinalizeKeeps(sys);
  }

  lemma LaunchElsewhere(w: World, req: Request, agent: Agent, session: Option<Session>, sys: Sys, b: Backend,
          key: SessionKey)
    requires KeyOf(sys.st.run) != key && sys.st.interrupts == []
    ensures Untouched(b, Launch(w, req, agent, session, sys, b).backend, key)
  {
    hide EmitError, RunLoop, Conclude;
    var ready := OfferState(Snapshot(session, StateOf(req)), sys);
    if TurnOf(req).Ok? && agent.startError.None? {
      LoopElsewhere(w, agent, 0, ready, b, key);
      LoopKeepsRun(w, agent, 0, ready, b);
      var (last, b', error) := RunLoop(w, agent, 0, ready, b);
      var start := Some(Start(sys.st.run.userId, sys.st.run.threadId, TurnOf(req).value, StateOf(req)));
      ConcludeElsewhere(w, last, b', error, start, key);
    }
  }

  /** A request leaves the sessions of other users and other threads alone, whatever fails. */
  lemma {:induction false} ServeElsewhere(v: Visit, b: Backend, key: SessionKey)
    requires v.key != key
    ensures Untouched(b, Serve(v, b).backend, key)
  {
    hide Launch, EmitError, Fails, Accepted;
    var w, found := v.world, Found(v, b);
    var sys := Offer(Sys(Initial(RunInfo(v.runId, v.key.id, "", map[])), []), RunStarted(v.key.id, v.runId));
    var admitted := sys.(st := sys.st.(run := sys.st.run.(userId := v.key.user, reqState := StateOf(v.req))));
    var (b', session) := Ensured(w.faults, Called(found), v.key, StateOf(v.req));
    assert Untouched(b, b', key) && Untouched(b, Called(found), key);
    if session.Some? {
      LaunchElsewhere(w, v.req, v.agent, session.value, admitted, b', key);
    }
  }

  // ----- whole threads

  /** The interrupts open on a thread after a sequence of requests: those of its last run
      that either interrupted or succeeded. */
  function OpenAfter(key: SessionKey, visits: seq<Visit>, b: Backend): seq<Interrupt> {
    if visits == [] then []
    else
      var o := OutcomeOf(visits, b);
      if visits[|visits| - 1].key == key && (o.sys.st.interrupts != [] || o.error.None?) then o.sys.st.interrupts
      else OpenAfter(key, visits[..|visits| - 1], b)
  }

  /** Stored either as the Go slice or as what JSON makes of it. */
  predicate Stores(value: Option<Value>, open: seq<Interrupt>) {
    match value
    case None => open == []
    case Some(v) => v == Pending(RecordsOf(open)) || v == JsonForm(Pending(RecordsOf(open)))
  }

  predicate OwnInterrupts(interrupts: seq<Interrupt>) {
    && |interrupts| <= 1
    && forall i :: 0 <= i < |interrupts| ==>
         interrupts[i].schema == ConfirmationSchema() && interrupts[i].expiresAt == ""
  }

  lemma StoresDecode(found: Lookup, open: seq<Interrupt>)
    requires OwnInterrupts(open)
    requires Stores(if found.Loaded? then StoredPending(found.session.state) else None, open)
    ensures PendingOf(found) == Some(RecordsOf(open))
  {
    LauncherRecordsSurvive(open);
    if open == [] {
      assert RecordsOf(open) == [];
    }
  }

  lemma FoundStores(v: Visit, b: Backend, open: seq<Interrupt>)
    requires Stores(PendingAt(b, v.key), open)
    ensures Stores(PendingAt(Found(v, b), v.key), open)
  {
    JsonFormIsJson(Pending(RecordsOf(open)));
    JsonFormIsStable(JsonForm(Pending(RecordsOf(open))));
  }

  lemma {:induction false} AskedIsOwn(v: Visit)
    ensures Paused(v.world.cfg, v.agent) ==> OwnInterrupts([Asked(v.world.cfg, v.agent)])
  {
    hide Paused, PausesIn, EndingPart;
  }

  /** After any sequence of requests, those of other threads and other users among them,
      the stored records of a thread are exactly its open interrupts. */
  lemma {:induction false} PendingIsOpen(key: SessionKey, visits: seq<Visit>, b: Backend)
    requires b.configured && PendingAt(b, key).None? && Legal(key, visits, b)
    ensures After(visits, b).configured
    ensures OwnInterrupts(OpenAfter(key, visits, b))
    ensures Stores(PendingAt(After(visits, b), key), OpenAfter(key, visits, b))
    decreases |visits|
  {
    hide Serve, Behaved, Paused, Asked;
    if visits != [] {
      var front, v := visits[..|visits| - 1], visits[|visits| - 1];
      PendingIsOpen(key, front, b);
      var before := After(front, b);
      if v.key == key {
        FoundStores(v, before, OpenAfter(key, front, b));
        ServeSettles(v, before);
        ServeRecords(v, before);
        AskedIsOwn(v);
      } else {
        ServeElsewhere(v, before, key);
      }
    }
  }

  /** Visit i on this thread ended at a confirmation call of its agent, and these interrupts
      are the one that stands for that call. */
  predicate AskedAtVisit(key: SessionKey, visits: seq<Visit>, i: nat, b: Backend, open: seq<Interrupt>) {
    && i < |visits| && visits[i].key == key && OutcomeOf(visits[..i + 1], b).sys.st.interrupts == open
    && Paused(visits[i].world.cfg, visits[i].agent) && open == [Asked(visits[i].world.cfg, visits[i].agent)]
  }

  /** What is open was asked for: it stands for a confirmation call that the agent of an
      earlier request on this thread made, and carries that call's id. */
  lemma {:induction false} OpenWasAsked(key: SessionKey, visits: seq<Visit>, b: Backend) returns (i: nat)
    requires OpenAfter(key, visits, b) != []
    ensures AskedAtVisit(key, visits, i, b, OpenAfter(key, visits, b))
    decreases |visits|
  {
    hide OutcomeOf, Paused, Asked, Serve, After;
    var front, v, o := visits[..|visits| - 1], visits[|visits| - 1], OutcomeOf(visits, b);
    LastOutcome(visits, b);
    ServeRecords(v, After(front, b));
    if v.key == key && (o.sys.st.interrupts != [] || o.error.None?) {
      i := |visits| - 1;
      assert visits[..i + 1] == visits;
    } else {
      i := OpenWasAsked(key, front, b);
      assert front[..i + 1] == visits[..i + 1];
    }
  }

  lemma {:induction false} LastOutcome(visits: seq<Visit>, b: Backend)
    requires visits != []
    ensures OutcomeOf(visits, b) == Serve(visits[|visits| - 1], After(visits[..|visits| - 1], b))
  {
  }

  function OpenIds(open: seq<Interrupt>): set<string> {
    set i | 0 <= i < |open| :: open[i].id
  }

  lemma RecordIds(open: seq<Interrupt>)
    ensures PendingIds(RecordsOf(open)) == OpenIds(open)
  {
    assert forall i :: 0 <= i < |open| ==> RecordsOf(open)[i].id == open[i].id;
    forall id | id in OpenIds(open)
      ensures id in PendingIds(RecordsOf(open))
    {
      var i :| 0 <= i < |open| && open[i].id == id;
      assert RecordsOf(open)[i].id == id;
    }
  }

  /** A request may start the agent: with nothing open and a usable message, or with exactly
      the open interrupts answered. */
  predicate MayStart(v: Visit, open: seq<Interrupt>) {
    if open == [] then v.req.resume == [] && v.req.message.Some?
    else Answers(v.req.resume, RecordsOf(open), v.world.clock, v.world.now)
  }

  lemma {:induction false} MayStartIff(v: Visit, open: seq<Interrupt>)
    requires OwnInterrupts(open)
    ensures MayStart(v, open) <==>
              Accepted(v.req.resume, RecordsOf(open), v.world.clock, v.world.now) && TurnOf(v.req).Ok?
  {
    if open != [] && Answers(v.req.resume, RecordsOf(open), v.world.clock, v.world.now) {
      assert RecordsOf(open)[0] == RecordOf(open[0]);
      AnsweredNotEmpty(v.req.resume, RecordsOf(open), v.world.clock, v.world.now);
      ValidatedImpliesConvertible(v.req.resume, RecordsOf(open), v.world.clock, v.world.now);
    }
  }

  function PartIds(parts: seq<Confirmation>): set<string> {
    set i | 0 <= i < |parts| :: parts[i].id
  }

  /** One entry that says yes or no to an interrupt: cancelled with nothing, or resolved with
      a boolean "approved" and, if at all, edited arguments that are an object. */
  predicate SaysTo(entry: ResumeEntry, id: string) {
    && entry.interruptId == id
    && ((entry.status == "cancelled" && entry.payload.Nil?) ||
        (entry.status == "resolved" && entry.payload.Object?
         && "approved" in entry.payload.fields && entry.payload.fields["approved"].Bool?
         && ("editedArgs" in entry.payload.fields ==> entry.payload.fields["editedArgs"].Object?)))
  }

  /** What may start the agent over one open interrupt: a single entry that says yes or no
      to it, if its id is not empty, at any time and whatever message comes along. */
  lemma {:induction false} MayStartOver(v: Visit, open: Interrupt)
    requires OwnInterrupts([open])
    ensures MayStart(v, [open]) <==> open.id != "" && |v.req.resume| == 1 && SaysTo(v.req.resume[0], open.id)
  {
    assert [open][0] == open;
    var rec := RecordOf(open);
    assert RecordsOf([open]) == [rec];
    AcceptedIff(v.req.resume, [rec], v.world.clock, v.world.now);
    OneRecord(v.req.resume, rec, v.world.clock, v.world.now);
    if v.req.resume != [] {
      SaysToIff(v.req.resume[0], rec, v.world.clock, v.world.now);
    }
  }

  lemma SaysToIff(entry: ResumeEntry, rec: PendingRecord, clock: Clock, now: int)
    requires rec.schema == ConfirmationSchema() && rec.expiresAt == ""
    ensures Settles(entry, rec, clock, now) <==> rec.id != "" && SaysTo(entry, rec.id)
  {
    hide Schema.PayloadConforms, ConfirmationSchema;
    if entry.payload.Object? {
      ConfirmationAllows(entry.payload.fields);
    }
  }

  /** Against a single record only a single entry is accepted. */
  lemma OneRecord(entries: seq<ResumeEntry>, rec: PendingRecord, clock: Clock, now: int)
    ensures Accepted(entries, [rec], clock, now) <==> |entries| == 1 && Settles(entries[0], rec, clock, now)
  {
    hide Answers, Settles, Schema.PayloadConforms;
    AcceptedIff(entries, [rec], clock, now);
    assert Current([rec], 0) && [rec][0] == rec;
    forall i | 0 <= i < |entries|
      ensures SettlesOne(entries[i], [rec], clock, now) <==> Settles(entries[i], rec, clock, now)
    {
    }
    if Accepted(entries, [rec], clock, now) {
      assert Named(entries, [rec][0].id);
      if |entries| > 1 {
        SettlesId(entries[0], rec, clock, now);
        SettlesId(entries[1], rec, clock, now);
      }
    }
    if |entries| == 1 {
      assert Named(entries, rec.id) <==> entries[0].interruptId == rec.id;
      SettlesId(entries[0], rec, clock, now);
    }
  }

  lemma SettlesId(entry: ResumeEntry, rec: PendingRecord, clock: Clock, now: int)
    ensures Settles(entry, rec, clock, now) ==> entry.interruptId == rec.id
  {
  }

  /** What an accepted resume delivers: each entry's answer, one response per open interrupt,
      each naming one. */
  lemma {:induction false} Delivered(v: Visit, open: seq<Interrupt>)
    requires OwnInterrupts(open) && open != [] && MayStart(v, open)
    ensures TurnOf(v.req).Ok? && TurnOf(v.req).value.Answering?
    ensures var parts := TurnOf(v.req).value.parts;
            && AnswersEntries(parts, v.req.resume)
            && PartIds(parts) == OpenIds(open) && |parts| == |OpenIds(open)|
  {
    assert RecordsOf(open)[0] == RecordOf(open[0]);
    RecordIds(open);
    AnsweredNotEmpty(v.req.resume, RecordsOf(open), v.world.clock, v.world.now);
    ValidatedImpliesConvertible(v.req.resume, RecordsOf(open), v.world.clock, v.world.now);
  }

  /** Thread safety. In any history of any threads and users, the last request starts the
      agent exactly when its client is there and either nothing is open on its thread and
      it brings a message and no resume, or its resume answers exactly the open interrupts;
      then one response per open interrupt is delivered, with the answer of the entry for
      it, and each names a confirmation call that the agent of an earlier request on this
      thread made. Afterwards the open
      interrupts are those this run emitted, none if it succeeded, and unchanged if it failed. */
  lemma {:induction false} ThreadIsSafe(visits: seq<Visit>, b: Backend)
    requires visits != []
    requires var key := visits[|visits| - 1].key; b.configured && PendingAt(b, key).None? && Legal(key, visits, b)
    ensures var front, v, o := visits[..|visits| - 1], visits[|visits| - 1], OutcomeOf(visits, b);
            var open, left := OpenAfter(v.key, front, b), OpenAfter(v.key, visits, b);
            && (o.start.Some? <==> Announced(v) && MayStart(v, open))
            && (o.start.Some? ==>
                  && TurnOf(v.req).Ok?
                  && o.start.value == Start(v.key.user, v.key.id, TurnOf(v.req).value, StateOf(v.req))
                  && if open == [] then o.start.value.turn == Saying(v.req.message.value)
                     else
                       && o.start.value.turn.Answering?
                       && AnswersEntries(o.start.value.turn.parts, v.req.resume)
                       && PartIds(o.start.value.turn.parts) == OpenIds(open)
                       && |o.start.value.turn.parts| == |OpenIds(open)|)
            && (open != [] ==> exists i :: AskedAtVisit(v.key, front, i, b, open))
            && Stores(PendingAt(o.backend, v.key), left)
            && (o.sys.st.interrupts != [] ==> left == o.sys.st.interrupts)
            && (o.sys.st.interrupts == [] && o.error.None? ==> left == [])
            && (o.sys.st.interrupts == [] && o.error.Some? ==> left == open)
  {
    hide Serve, Behaved, Legal, MayStart, Accepted, AskedAtVisit, TurnOf, PreparedFor, Announced;
    var front, v := visits[..|visits| - 1], visits[|visits| - 1];
    LegalFront(v.key, visits, b);
    PendingIsOpen(v.key, front, b);
    PendingIsOpen(v.key, visits, b);
    var before, open := After(front, b), OpenAfter(v.key, front, b);
    ServeSettles(v, before);
    ServeStarts(v, before);
    CheckedIsOpen(v, before, open);
    MayStartIff(v, open);
    if open != [] {
      var i := OpenWasAsked(v.key, front, b);
    }
    if MayStart(v, open) {
      if open == [] {
        SayingTurn(v);
      } else {
        Delivered(v, open);
      }
    }
  }

  /** A request whose lookup succeeds is checked against exactly what is open. */
  lemma {:induction false} CheckedIsOpen(v: Visit, b: Backend, open: seq<Interrupt>)
    requires b.configured && OwnInterrupts(open) && Stores(PendingAt(b, v.key), open)
    ensures (Behaved(v, b) || !v.world.faults(b.calls)) ==> CheckedAgainst(v, b) == Some(RecordsOf(open))
    ensures v.world.faults(b.calls) ==> CheckedAgainst(v, b) == Some([])
  {
    hide JsonSession, HasInternalKey, KeepsPending, PendingOf;
    FoundStores(v, b, open);
    assert Found(v, b).calls == b.calls && Found(v, b).configured;
    assert PendingOf(NotLoaded) == Some([]) by {
      NothingLoaded();
    }
    if !v.world.faults(b.calls) {
      StoresDecode(Get(v.world.faults, Found(v, b), v.key), open);
    }
  }

  lemma NothingLoaded()
    ensures PendingOf(NotLoaded) == Some([])
  {
  }

  /** The start condition without any trust in the service at the last request: a failing
      first lookup counts as nothing pending, so that the agent can start over an open
      interrupt, and exactly then. */
  lemma {:induction false} StartsIff(visits: seq<Visit>, b: Backend)
    requires visits != []
    requires var front, v := visits[..|visits| - 1], visits[|visits| - 1];
             b.configured && PendingAt(b, v.key).None? && Legal(v.key, front, b)
    ensures var front, v, o := visits[..|visits| - 1], visits[|visits| - 1], OutcomeOf(visits, b);
            var before, open := After(front, b), OpenAfter(v.key, front, b);
            && (o.start.Some? <==>
                  && Announced(v) && PreparedFor(v, before).Some?
                  && if v.world.faults(before.calls) then v.req.resume == [] && v.req.message.Some?
                     else MayStart(v, open))
            && (o.start.Some? && !MayStart(v, open) ==> v.world.faults(before.calls) && open != [])
  {
    hide Serve, Legal, Accepted, TurnOf, PreparedFor, Announced, Behaved, MayStart;
    var front, v := visits[..|visits| - 1], visits[|visits| - 1];
    var before, open := After(front, b), OpenAfter(v.key, front, b);
    PendingIsOpen(v.key, front, b);
    ServeStarts(v, before);
    CheckedIsOpen(v, before, open);
    MayStartIff(v, open);
    MayStartIff(v, []);
    NothingOpen(v);
    assert RecordsOf([]) == [];
  }

  lemma {:induction false} NothingOpen(v: Visit)
    ensures MayStart(v, []) <==> v.req.resume == [] && v.req.message.Some?
  {
  }

  lemma {:induction false} SayingTurn(v: Visit)
    requires MayStart(v, [])
    ensures TurnOf(v.req) == Ok(Saying(v.req.message.value))
  {
  }

  lemma AnsweredNotEmpty(entries: seq<ResumeEntry>, pending: seq<PendingRecord>, clock: Clock, now: int)
    requires pending != [] && Answers(entries, pending, clock, now)
    ensures entries != []
  {
    assert pending[0].id in PendingIds(pending);
    assert pending[0].id in EntryIds(entries);
  }

  lemma {:induction false} LegalFront(key: SessionKey, visits: seq<Visit>, b: Backend)
    requires Legal(key, visits, b) && visits != []
    ensures Legal(key, visits[..|visits| - 1], b)
    ensures visits[|visits| - 1].key == key ==> Behaved(visits[|visits| - 1], After(visits[..|visits| - 1], b))
  {
  }
}
