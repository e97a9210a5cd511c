/** The ADK session service, and the state snapshots built from it (agui/snapshot.go). */
module Sessions {
  import opened Values
  import opened Adk

  const PENDING_KEY := "_agui_pending_interrupts"

  /** Keys that belong to the launcher and are hidden from clients. */
  predicate IsInternalKey(key: string) {
    key == PENDING_KEY || "_agui_" <= key
  }

  function Visible(state: Fields): Fields {
    map k | k in state && !IsInternalKey(k) :: state[k]
  }

  predicate HasInternalKey(state: Fields) {
    exists k :: k in state && IsInternalKey(k)
  }

  /** Stored state overridden by request state, launcher keys left out. */
  function Snapshot(stored: Option<Session>, reqState: Fields): Fields {
    Override(if stored.Some? then Visible(stored.value.state) else map[], Visible(reqState))
  }

  /** Which of the service's calls fail, by call number. */
  type Faults = nat -> bool

  /** Within one app a session belongs to a user: two users may use the same thread id. */
  datatype SessionKey = SessionKey(user: string, id: string)

  /** The service as seen for one app: its sessions and the number of calls so far. */
  datatype Backend = Backend(configured: bool, sessions: map<SessionKey, Session>, calls: nat)

  /** Get fails on a fault and, like ADK, on an unknown session; Unconfigured is a nil session. */
  datatype Lookup = Unconfigured | NotLoaded | Loaded(session: Session)

  function Called(b: Backend): Backend {
    if b.configured then b.(calls := b.calls + 1) else b
  }

  function Get(faults: Faults, b: Backend, key: SessionKey): Lookup {
    if !b.configured then Unconfigured
    else if faults(b.calls) || key !in b.sessions then NotLoaded
    else Loaded(b.sessions[key])
  }

  function LookupOption(l: Lookup): Option<Session> {
    if l.Loaded? then Some(l.session) else None
  }

  function Put(b: Backend, key: SessionKey, session: Session): Backend {
    if b.configured then b.(sessions := b.sessions[key := session]) else b
  }

  /** Create: the new session, or None on a fault. */
  function Create(faults: Faults, b: Backend, key: SessionKey, state: Fields): (Backend, Option<Session>)
    requires b.configured
  {
    var session := Session(state, []);
    if faults(b.calls) then (Called(b), None) else (Put(Called(b), key, session), Some(session))
  }

  /** AppendEvent: the event joins the history and its delta overrides the state. */
  function Append(faults: Faults, b: Backend, key: SessionKey, session: Session, ev: Event): (Backend, bool)
    requires b.configured
  {
    if faults(b.calls) then (Called(b), false)
    else
      var updated := Session(Override(session.state, MapOf(ev.delta)), session.history + [Some(ev)]);
      (Put(Called(b), key, updated), true)
  }

  class SessionService {
    const configured: bool
    const faults: Faults
    var sessions: map<SessionKey, Session>
    var calls: nat

    constructor (configured: bool, faults: Faults, sessions: map<SessionKey, Session>)
      ensures View() == Backend(configured, sessions, 0) && this.faults == faults
    {
      this.configured, this.faults := configured, faults;
      this.sessions, this.calls := sessions, 0;
    }

    function View(): Backend
      reads this
    {
      Backend(configured, sessions, calls)
    }

    /** getSession of agui/interrupt_state.go: no call at all when unconfigured. */
    method GetSession(key: SessionKey) returns (found: Lookup)
      modifies this
      ensures found == Get(faults, old(View()), key) && View() == Called(old(View()))
    {
      if !configured {
        return Unconfigured;
      }
      calls := calls + 1;
      if faults(calls - 1) || key !in sessions {
        return NotLoaded;
      }
      return Loaded(sessions[key]);
    }

    method CreateSession(key: SessionKey, state: Fields) returns (created: Option<Session>)
      requires configured
      modifies this
      ensures (View(), created) == Create(faults, old(View()), key, state)
    {
      calls := calls + 1;
      if faults(calls - 1) {
        return None;
      }
      sessions := sessions[key := Session(state, [])];
      return Some(sessions[key]);
    }

    method AppendEvent(key: SessionKey, session: Session, ev: Event) returns (ok: bool)
      requires configured
      modifies this
      ensures (View(), ok) == Append(faults, old(View()), key, session, ev)
    {
      calls := calls + 1;
      if faults(calls - 1) {
        return false;
      }
      sessions := sessions[key := Session(Override(session.state, MapOf(ev.delta)), session.history + [Some(ev)])];
      return true;
    }

    /** What the runner itself stores while the launcher reads its events. */
    method Store(key: SessionKey, session: Session)
      modifies this
      ensures View() == Put(old(View()), key, session)
    {
      if configured {
        sessions := sessions[key := session];
      }
    }

    /** loadSessionForSnapshot then, if nothing was found, Create. None is a creation error;
        Some(None) is an unconfigured service. */
    method EnsureSessionForSnapshot(key: SessionKey, initialState: Fields) returns (result: Option<Option<Session>>)
      modifies this
      ensures (View(), result) == Ensured(faults, old(View()), key, initialState)
    {
      var found := GetSession(key);
      if found.Loaded? {
        return Some(Some(found.session));
      }
      if !configured {
        return Some(None);
      }
      var created := CreateSession(key, initialState);
      if created.None? {
        return None;
      }
      return Some(created);
    }
  }

  function Ensured(faults: Faults, b: Backend, key: SessionKey,
          initialState: Fields): (Backend, Option<Option<Session>>)
  {
    match Get(faults, b, key)
    case Unconfigured => (b, Some(None))
    case Loaded(session) => (Called(b), Some(Some(session)))
    case NotLoaded =>
      var (b', created) := Create(faults, Called(b), key, initialState);
      (b', if created.None? then None else Some(created))
  }

  method BuildStateSnapshot(stored: Option<Session>, reqState: Fields) returns (out: Fields)
    ensures out == Snapshot(stored, reqState)
  {
    out := map[];
    if stored.Some? {
      out := CopyVisible(out, stored.value.state);
    }
    out := CopyVisible(out, reqState);
  }

  /** One of the two loops of buildStateSnapshot. */
  method CopyVisible(into: Fields, from: Fields) returns (out: Fields)
    ensures out == Override(into, Visible(from))
  {
    out := into;
    var rest := from.Keys;
    while rest != {}
      invariant rest <= from.Keys
      invariant forall k :: k in out <==> k in into || (k in from && !IsInternalKey(k) && k !in rest)
      invariant forall k :: k in out ==>
        out[k] == if k in from && !IsInternalKey(k) && k !in rest then from[k] else into[k]
      decreases |rest|
    {
      var k :| k in rest;
      rest := rest - {k};
      if !IsInternalKey(k) {
        out := out[k := from[k]];
      }
    }
  }
}
