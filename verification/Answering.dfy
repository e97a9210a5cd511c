/** Whether a thread can go on: which open interrupts a client can answer at all. */
module Answering {
  import opened Values
  import opened Adk
  import opened Protocol
  import opened Launcher
  import opened Emission
  import opened Sessions
  import opened Interrupts
  import opened StreamSpec
  import opened RunSpec
  import opened Halting
  import opened Outcomes
  import opened Threads

  function CancelOf(interrupt: Interrupt): ResumeEntry {
    ResumeEntry(interrupt.id, CANCELLED, Nil)
  }

  /** The resume that cancels every open interrupt. */
  function Cancelling(open: seq<Interrupt>): seq<ResumeEntry> {
    seq(|open|, i requires 0 <= i < |open| => CancelOf(open[i]))
  }

  lemma {:induction false} CancellingAnswers(open: seq<Interrupt>, clock: Clock, now: int)
    requires OwnInterrupts(open) && "" !in OpenIds(open)
    ensures Accepted(Cancelling(open), RecordsOf(open), clock, now)
  {
    if open != [] {
      var entry, rec := CancelOf(open[0]), RecordOf(open[0]);
      assert Cancelling(open) == [entry] && RecordsOf(open) == [rec];
      assert [entry][0].interruptId == [rec][0].id == open[0].id;
      assert EntryIds([entry]) == {open[0].id} == PendingIds([rec]);
      assert open[0].id in OpenIds(open);
    }
  }

  lemma {:induction false} EmptyIdHasNoAnswer(entries: seq<ResumeEntry>, open: seq<Interrupt>, clock: Clock, now: int)
    requires "" in OpenIds(open)
    ensures !Accepted(entries, RecordsOf(open), clock, now)
  {
    RecordIds(open);
    assert RecordsOf(open) != [];
  }

  /** After any history, some resume is accepted on the thread exactly when no open
      interrupt has an empty id: cancelling always works, an empty id is never answered. */
  lemma {:induction false} CanGoOnIff(key: SessionKey, visits: seq<Visit>, b: Backend, clock: Clock, now: int)
    requires b.configured && PendingAt(b, key).None? && Legal(key, visits, b)
    ensures var open := OpenAfter(key, visits, b);
            (exists entries :: Accepted(entries, RecordsOf(open), clock, now)) <==> "" !in OpenIds(open)
  {
    hide Legal, Accepted, OpenAfter;
    var open := OpenAfter(key, visits, b);
    PendingIsOpen(key, visits, b);
    if "" in OpenIds(open) {
      forall entries
        ensures !Accepted(entries, RecordsOf(open), clock, now)
      {
        EmptyIdHasNoAnswer(entries, open, clock, now);
      }
    } else {
      CancellingAnswers(open, clock, now);
    }
  }

  /** A client that is there and cancels what is open gets the agent started. */
  lemma {:induction false} CancellingStarts(visits: seq<Visit>, b: Backend)
    requires visits != []
    requires var key := visits[|visits| - 1].key; b.configured && PendingAt(b, key).None? && Legal(key, visits, b)
    requires var v := visits[|visits| - 1];
             var open := OpenAfter(v.key, visits[..|visits| - 1], b);
             open != [] && "" !in OpenIds(open) && v.req.resume == Cancelling(open) && Announced(v)
    ensures OutcomeOf(visits, b).start.Some?
  {
    hide Legal, OpenAfter, OutcomeOf, Answers, Announced;
    var front, v := visits[..|visits| - 1], visits[|visits| - 1];
    var open := OpenAfter(v.key, front, b);
    LegalFront(v.key, visits, b);
    PendingIsOpen(v.key, front, b);
    CancellingAnswers(open, v.world.clock, v.world.now);
    assert RecordsOf(open)[0] == RecordOf(open[0]);
    ThreadIsSafe(visits, b);
  }

  /** A request that does not start the agent fails and interrupts nothing. */
  lemma {:induction false} NotStartedChangesNothing(v: Visit, b: Backend)
    requires Serve(v, b).start.None?
    ensures Serve(v, b).error.Some? && Serve(v, b).sys.st.interrupts == []
  {
    hide EmitError, Ensured, PendingOf, Accepted, TurnOf, RunLoop, Found, JsonSession;
    var sys := Offer(Sys(Initial(RunInfo(v.runId, v.key.id, "", map[])), []), RunStarted(v.key.id, v.runId));
    var admitted := sys.(st := sys.st.(run := sys.st.run.(userId := v.key.user, reqState := StateOf(v.req))));
    ErrorKeeps(PendingCorrupt, sys);
    ErrorKeeps(ResumeRejected, sys);
    ErrorKeeps(SessionUnavailable, admitted);
    var session := Ensured(v.world.faults, Called(Found(v, b)), v.key, StateOf(v.req)).1;
    if session.Some? && TurnOf(v.req).Err? {
      ErrorKeeps(TurnOf(v.req).error, OfferState(Snapshot(session.value, StateOf(v.req)), admitted));
    }
  }

  /** An open interrupt with an empty id blocks its thread for good: whatever requests
      follow, none starts the agent and the interrupt stays open. */
  lemma {:induction false} EmptyIdBlocks(key: SessionKey, visits: seq<Visit>, more: seq<Visit>, b: Backend)
    requires b.configured && PendingAt(b, key).None? && Legal(key, visits + more, b)
    requires "" in OpenIds(OpenAfter(key, visits, b))
    ensures OpenAfter(key, visits + more, b) == OpenAfter(key, visits, b)
    ensures forall k :: 0 <= k < |more| && more[k].key == key ==>
              OutcomeOf((visits + more)[..|visits| + k + 1], b).start.None?
    decreases |more|
  {
    hide Legal, OutcomeOf, Serve;
    var all := visits + more;
    if more == [] {
      assert all == visits;
    } else {
      var front, last := more[..|more| - 1], more[|more| - 1];
      assert all[..|all| - 1] == visits + front && all[..|all|] == all && all[|all| - 1] == last;
      LegalFront(key, all, b);
      EmptyIdBlocks(key, visits, front, b);
      if last.key == key {
        StuckOnce(all, b);
      }
      forall k | 0 <= k < |more| && more[k].key == key
        ensures OutcomeOf(all[..|visits| + k + 1], b).start.None?
      {
        if k < |front| {
          assert front[k] == more[k];
          assert all[..|visits| + k + 1] == (visits + front)[..|visits| + k + 1];
        } else {
          assert all[..|visits| + k + 1] == all;
        }
      }
    }
  }

  lemma {:induction false} StuckOnce(visits: seq<Visit>, b: Backend)
    requires visits != []
    requires var key := visits[|visits| - 1].key; b.configured && PendingAt(b, key).None? && Legal(key, visits, b)
    requires var v := visits[|visits| - 1]; "" in OpenIds(OpenAfter(v.key, visits[..|visits| - 1], b))
    ensures OutcomeOf(visits, b).start.None?
    ensures OutcomeOf(visits, b).error.Some? && OutcomeOf(visits, b).sys.st.interrupts == []
  {
    hide Legal, OpenAfter, Serve, Answers;
    var front, v := visits[..|visits| - 1], visits[|visits| - 1];
    var open := OpenAfter(v.key, front, b);
    ThreadIsSafe(visits, b);
    EmptyIdHasNoAnswer(v.req.resume, open, v.world.clock, v.world.now);
    NotStartedChangesNothing(v, After(front, b));
  }

  // ----- such an interrupt can come about

  function Wrapped(): FunctionCall {
    FunctionCall("t", "tool", None)
  }

  /** A configuration that encodes everything and unwraps every confirmation call. */
  function SimpleConfig(): Config {
    Config("app", None, _ => Some("{}"), _ => "m", _ => Some(Wrapped()), _ => "")
  }

  function AskPart(id: string): Part {
    Part("", false, Some(FunctionCall(id, CONFIRMATION_NAME, None)), None)
  }

  function EmptySession(): Session {
    Session(map[], [])
  }

  /** An agent whose only event asks for confirmation under these call ids. */
  function AskingAgent(ids: seq<string>): Agent {
    var parts := seq(|ids|, i requires 0 <= i < |ids| => AskPart(ids[i]));
    var ev := Event("", "", false, Some(Content("model", parts)), [], false, "", "", 0);
    Agent(None, [Arrival(Yielded(ev), EmptySession())], EmptySession())
  }

  function AskingVisit(ids: seq<string>): Visit {
    var world := World(SimpleConfig(), Quiet(), n => false, Clock(_ => None, _ => None), 0);
    Visit(world, "r", SessionKey("u", "th"), Request([], Nil, Some(Content("user", []))), AskingAgent(ids), false)
  }

  const EMPTY_SERVICE := Backend(true, map[], 0)

  lemma {:induction false} AskingPauses(ids: seq<string>)
    requires ids != []
    ensures Paused(SimpleConfig(), AskingAgent(ids)) && Asked(SimpleConfig(), AskingAgent(ids)).id == ids[0]
  {
    var cfg, agent := SimpleConfig(), AskingAgent(ids);
    var ev := agent.arrivals[0].item.event;
    assert PartsOf(ev)[0] == AskPart(ids[0]);
    assert EndsRun(cfg, ev, PartsOf(ev)[0]) && Pauses(cfg, ev, PartsOf(ev)[0]);
    assert EndingPart(cfg, ev, 0) == 0;
    assert EndsAt(cfg, agent.arrivals[0].item);
    assert Survived(cfg, agent) == 0;
  }

  lemma {:induction false} AskingIsServed(ids: seq<string>)
    ensures var v := AskingVisit(ids);
            && Behaved(v, EMPTY_SERVICE) && Serve(v, EMPTY_SERVICE).start.Some?
            && Serve(v, EMPTY_SERVICE)
               == Handle(v.world, RunInfo("r", "th", "", map[]), "u", v.req, v.agent, EMPTY_SERVICE)
  {
    hide Handle, Prepared, Fails, Accepted;
    var v := AskingVisit(ids);
    assert StateOf(v.req) == map[] && Found(v, EMPTY_SERVICE) == EMPTY_SERVICE;
    assert Behaved(v, EMPTY_SERVICE);
    ServeSettles(v, EMPTY_SERVICE);
    ServeStarts(v, EMPTY_SERVICE);
    QuietSends([RunStarted("th", "r")]);
    assert Announced(v) by {
      StaysThere(v);
    }
    NothingRequired(v.world.clock, v.world.now);
  }

  lemma {:induction false} StaysThere(v: Visit)
    requires v.world.net == Quiet()
    ensures Announced(v)
  {
    hide Send;
    QuietSends([RunStarted(v.key.id, v.runId)]);
  }

  lemma NothingRequired(clock: Clock, now: int)
    ensures Accepted([], [], clock, now)
  {
  }

  /** One request whose agent asks for confirmation under an empty call id leaves an open
      interrupt with that id; from then on its thread is blocked. */
  lemma {:induction false} EmptyIdCanOpen()
    ensures var v := AskingVisit([""]);
            && Legal(v.key, [v], EMPTY_SERVICE) && PendingAt(EMPTY_SERVICE, v.key).None?
            && OpenIds(OpenAfter(v.key, [v], EMPTY_SERVICE)) == {""}
  {
    hide Serve, Handle, Behaved, Paused, Asked;
    var v := AskingVisit([""]);
    AskingIsServed([""]);
    AskingPauses([""]);
    RequestEnds(v.world, RunInfo("r", "th", "", map[]), "u", v.req, v.agent, EMPTY_SERVICE);
    OneVisit(v, EMPTY_SERVICE);
    assert OpenAfter(v.key, [v], EMPTY_SERVICE)[0].id == "";
  }

  lemma {:induction false} OneVisit(v: Visit, b: Backend)
    ensures OutcomeOf([v], b) == Serve(v, b)
    ensures Behaved(v, b) ==> Legal(v.key, [v], b)
    ensures Serve(v, b).sys.st.interrupts != [] ==> OpenAfter(v.key, [v], b) == Serve(v, b).sys.st.interrupts
  {
    hide Serve, Behaved;
    assert [v][..0] == [];
    assert After([], b) == b && Legal(v.key, [], b);
  }

  // ----- further confirmation calls of the same run

  function AskedParts(cfg: Config, ev: Event, parts: seq<Part>): seq<Interrupt> {
    if parts == [] then []
    else
      var front, last := AskedParts(cfg, ev, parts[..|parts| - 1]), parts[|parts| - 1];
      if Pauses(cfg, ev, last) then front + [AskedBy(cfg, last)] else front
  }

  /** The interrupts that all confirmation calls of some arrivals would make, in order. */
  function AskedArrivals(cfg: Config, arrivals: seq<Arrival>): seq<Interrupt> {
    if arrivals == [] then []
    else
      var front, item := AskedArrivals(cfg, arrivals[..|arrivals| - 1]), arrivals[|arrivals| - 1].item;
      if item.Yielded? then front + AskedParts(cfg, item.event, PartsOf(item.event)) else front
  }

  lemma {:induction false} NoneAsked(cfg: Config, ev: Event, parts: seq<Part>)
    requires forall i :: 0 <= i < |parts| ==> !EndsRun(cfg, ev, parts[i])
    ensures AskedParts(cfg, ev, parts) == []
  {
    if parts != [] {
      NoneAsked(cfg, ev, parts[..|parts| - 1]);
    }
  }

  /** The parts of an event from m on add to what its first m parts ask. */
  lemma {:induction false} AskedPrefix(cfg: Config, ev: Event, parts: seq<Part>, m: nat)
    requires m <= |parts|
    ensures AskedParts(cfg, ev, parts[..m]) <= AskedParts(cfg, ev, parts)
    decreases |parts|
  {
    hide Pauses, AskedBy;
    if m == |parts| {
      assert parts[..m] == parts;
    } else {
      assert parts[..|parts| - 1][..m] == parts[..m];
      AskedPrefix(cfg, ev, parts[..|parts| - 1], m);
    }
  }

  lemma {:induction false} FirstAskedIn(cfg: Config, ev: Event)
    requires PausesIn(cfg, ev)
    ensures [AskedIn(cfg, ev)] <= AskedParts(cfg, ev, PartsOf(ev))
  {
    hide EndingPart, Pauses, EndsRun, AskedBy;
    var parts, m := PartsOf(ev), EndingPart(cfg, ev, 0);
    NoneAsked(cfg, ev, parts[..m]);
    assert parts[..m + 1][..m] == parts[..m];
    AskedPrefix(cfg, ev, parts, m + 1);
  }

  lemma {:induction false} NoneAskedBefore(cfg: Config, arrivals: seq<Arrival>)
    requires forall j :: 0 <= j < |arrivals| ==> !EndsAt(cfg, arrivals[j].item)
    ensures AskedArrivals(cfg, arrivals) == []
  {
    hide EndingPart, EndsRun, AskedParts, PartsOf;
    if arrivals != [] {
      var item := arrivals[|arrivals| - 1].item;
      NoneAskedBefore(cfg, arrivals[..|arrivals| - 1]);
      if item.Yielded? {
        assert !EndsAt(cfg, arrivals[|arrivals| - 1].item);
        NoneAsked(cfg, item.event, PartsOf(item.event));
      }
    }
  }

  lemma {:induction false} AskedArrivalsPrefix(cfg: Config, arrivals: seq<Arrival>, n: nat)
    requires n <= |arrivals|
    ensures AskedArrivals(cfg, arrivals[..n]) <= AskedArrivals(cfg, arrivals)
    decreases |arrivals|
  {
    hide AskedParts;
    if n == |arrivals| {
      assert arrivals[..n] == arrivals;
    } else {
      assert arrivals[..|arrivals| - 1][..n] == arrivals[..n];
      AskedArrivalsPrefix(cfg, arrivals[..|arrivals| - 1], n);
    }
  }

  lemma {:induction false} FirstAsked(cfg: Config, agent: Agent)
    requires Paused(cfg, agent)
    ensures [Asked(cfg, agent)] <= AskedArrivals(cfg, agent.arrivals)
  {
    hide EndingPart, AskedParts, PausesIn, AskedIn, EndingArrival, EndsAt;
    var arrivals, n := agent.arrivals, Survived(cfg, agent);
    FirstAskedIn(cfg, arrivals[n].item.event);
    NoneAskedBefore(cfg, arrivals[..n]);
    assert arrivals[..n + 1][..n] == arrivals[..n];
    AskedArrivalsPrefix(cfg, arrivals, n + 1);
  }

  /** Of all the confirmation calls an agent yields, the client gets the first, and that
      only if nothing else ended the run before it; so all of them are surfaced exactly when
      there is none, or a single one that the run reaches. */
  lemma {:induction false} SurfacedIff(w: World, run: RunInfo, userId: string, req: Request, agent: Agent, b: Backend)
    requires w.net == Quiet() && Handle(w, run, userId, req, agent, b).start.Some?
    ensures var surfaced := Handle(w, run, userId, req, agent, b).sys.st.interrupts;
            var all := AskedArrivals(w.cfg, agent.arrivals);
            && surfaced <= all && |surfaced| == (if Paused(w.cfg, agent) then 1 else 0)
            && (surfaced == all <==> |all| == (if Paused(w.cfg, agent) then 1 else 0))
  {
    hide Handle, Paused, Asked;
    RequestEnds(w, run, userId, req, agent, b);
    if Paused(w.cfg, agent) {
      FirstAsked(w.cfg, agent);
    }
  }

  /** Two confirmation calls in one event: the second is never shown to anyone. */
  lemma {:induction false} SecondCallIsLost()
    ensures var v := AskingVisit(["a", "b"]);
            && |AskedArrivals(SimpleConfig(), v.agent.arrivals)| == 2
            && OpenIds(OpenAfter(v.key, [v], EMPTY_SERVICE)) == {"a"}
  {
    hide Serve, Handle, Behaved, Paused, Asked;
    var v := AskingVisit(["a", "b"]);
    AskingIsServed(["a", "b"]);
    AskingPauses(["a", "b"]);
    RequestEnds(v.world, RunInfo("r", "th", "", map[]), "u", v.req, v.agent, EMPTY_SERVICE);
    OneVisit(v, EMPTY_SERVICE);
    assert OpenAfter(v.key, [v], EMPTY_SERVICE)[0].id == "a";
    TwoAsked();
  }

  lemma {:induction false} TwoAsked()
    ensures |AskedArrivals(SimpleConfig(), AskingAgent(["a", "b"]).arrivals)| == 2
  {
    hide Pauses, AskedBy, SimpleConfig;
    var cfg, arrivals := SimpleConfig(), AskingAgent(["a", "b"]).arrivals;
    var ev := arrivals[0].item.event;
    var parts := PartsOf(ev);
    assert arrivals[..0] == [];
    assert parts == [AskPart("a"), AskPart("b")];
    assert parts[..1] == [AskPart("a")] && [AskPart("a")][..0] == [];
    AskPartPauses(ev, "a");
    AskPartPauses(ev, "b");
    assert AskedParts(cfg, ev, []) == [];
    assert |AskedParts(cfg, ev, [AskPart("a")])| == 1;
  }

  lemma AskPartPauses(ev: Event, id: string)
    ensures Pauses(SimpleConfig(), ev, AskPart(id))
  {
  }
}
