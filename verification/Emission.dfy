/** The SSE emitter: a writer behind a chain of OnEmit interceptors that goes quiet
    after its first failure. */
module Emission {
  import opened Protocol

  datatype Verdict = Pass(event: AgEvent) | Drop | Abort

  /** An interceptor's answer to its n-th call; the call number stands for its private state. */
  type Hook = (nat, AgEvent) -> Verdict

  /** What lies between the launcher and the client: the interceptors, and which writes succeed. */
  datatype Net = Net(hooks: seq<Hook>, accepts: nat -> bool)

  /** The emitter's own state: calls so far, events written, and whether `err` is set. */
  datatype Wire = Wire(calls: nat, sent: seq<AgEvent>, failed: bool)

  const IDLE := Wire(0, [], false)

  /** No interceptors and a writer that never fails. */
  function Quiet(): Net {
    Net([], n => true)
  }

  /** Interceptors that may fail but neither rewrite nor drop an event. */
  ghost predicate Faithful(hooks: seq<Hook>) {
    forall h, n, ev :: 0 <= h < |hooks| ==> hooks[h](n, ev) in {Pass(ev), Abort}
  }

  /** The verdict of hooks[i..] on an event: the first Drop or Abort wins. */
  function RunHooks(hooks: seq<Hook>, i: nat, call: nat, ev: AgEvent): Verdict
    requires i <= |hooks|
    decreases |hooks| - i
  {
    if i == |hooks| then Pass(ev)
    else
      match hooks[i](call, ev)
      case Pass(next) => RunHooks(hooks, i + 1, call, next)
      case stop => stop
  }

  function EmitOne(net: Net, w: Wire, ev: AgEvent): Wire {
    if w.failed then w
    else
      match RunHooks(net.hooks, 0, w.calls, ev)
      case Abort => Wire(w.calls + 1, w.sent, true)
      case Drop => Wire(w.calls + 1, w.sent, false)
      case Pass(out) =>
        if net.accepts(|w.sent|) then Wire(w.calls + 1, w.sent + [out], false)
        else Wire(w.calls + 1, w.sent, true)
  }

  /** The wire after every event of `offered` was passed to emit, in order. */
  function Send(net: Net, offered: seq<AgEvent>): Wire {
    if offered == [] then IDLE
    else EmitOne(net, Send(net, offered[..|offered| - 1]), offered[|offered| - 1])
  }

  predicate Fails(net: Net, offered: seq<AgEvent>) {
    Send(net, offered).failed
  }

  lemma SendSnoc(net: Net, offered: seq<AgEvent>, ev: AgEvent)
    ensures Send(net, offered + [ev]) == EmitOne(net, Send(net, offered), ev)
  {
    assert (offered + [ev])[..|offered|] == offered;
  }

  /** After the first failure nothing that is emitted changes the wire. */
  lemma {:induction false} FailureAbsorbs(net: Net, offered: seq<AgEvent>, more: seq<AgEvent>)
    requires Fails(net, offered)
    ensures Send(net, offered + more) == Send(net, offered)
    decreases |more|
  {
    if more == [] {
      assert offered + more == offered;
    } else {
      var front, last := more[..|more| - 1], more[|more| - 1];
      FailureAbsorbs(net, offered, front);
      SendSnoc(net, offered + front, last);
      assert offered + more == offered + front + [last];
    }
  }

  lemma QuietEmits(w: Wire, ev: AgEvent)
    requires !w.failed
    ensures EmitOne(Quiet(), w, ev) == Wire(w.calls + 1, w.sent + [ev], false)
  {
    assert RunHooks([], 0, w.calls, ev) == Pass(ev);
  }

  lemma {:induction false} QuietSends(offered: seq<AgEvent>)
    ensures Send(Quiet(), offered) == Wire(|offered|, offered, false)
  {
    if offered != [] {
      var front, last := offered[..|offered| - 1], offered[|offered| - 1];
      QuietSends(front);
      QuietEmits(Send(Quiet(), front), last);
      assert offered == front + [last];
    }
  }

  lemma {:induction false} FaithfulHooks(hooks: seq<Hook>, i: nat, call: nat, ev: AgEvent)
    requires i <= |hooks| && Faithful(hooks)
    ensures RunHooks(hooks, i, call, ev) in {Pass(ev), Abort}
    decreases |hooks| - i
  {
    if i < |hooks| {
      FaithfulHooks(hooks, i + 1, call, ev);
    }
  }

  /** Event k would be stopped: an interceptor fails on it or its write is refused. */
  predicate Stops(net: Net, k: nat, ev: AgEvent) {
    RunHooks(net.hooks, 0, k, ev).Abort? || !net.accepts(k)
  }

  /** `full` cut before the first event that is stopped, or all of it if none is. */
  ghost predicate CutOf(net: Net, wire: Wire, full: seq<AgEvent>) {
    && wire.sent <= full
    && (forall n :: 0 <= n < |wire.sent| ==> !Stops(net, n, full[n]))
    && (wire.failed <==> wire.sent != full)
    && (wire.failed ==> Stops(net, |wire.sent|, full[|wire.sent|]))
  }

  /** With interceptors that let every event through as it is or fail, the wire is the
      offered sequence cut exactly before the first event whose write or interceptor fails. */
  lemma {:induction false} FaithfulCut(net: Net, offered: seq<AgEvent>)
    requires Faithful(net.hooks)
    ensures CutOf(net, Send(net, offered), offered)
    ensures !Send(net, offered).failed ==> Send(net, offered).calls == |offered|
  {
    if offered != [] {
      var front, last := offered[..|offered| - 1], offered[|offered| - 1];
      FaithfulCut(net, front);
      FaithfulHooks(net.hooks, 0, Send(net, front).calls, last);
      assert offered == front + [last];
    }
  }

  /** The emitter of one /run_sse request. `offered` records every event passed to Emit. */
  class Emitter {
    const net: Net
    var calls: nat
    var sent: seq<AgEvent>
    var failed: bool
    ghost var offered: seq<AgEvent>

    ghost predicate Valid()
      reads this
    {
      Wire(calls, sent, failed) == Send(net, offered)
    }

    constructor (net: Net)
      ensures Valid() && this.net == net && offered == []
    {
      this.net := net;
      calls, sent, failed := 0, [], false;
      offered := [];
    }

    method Emit(event: AgEvent)
      requires Valid()
      modifies this
      ensures Valid() && offered == old(offered) + [event]
    {
      SendSnoc(net, offered, event);
      offered := offered + [event];
      if failed {
        return;
      }
      var call := calls;
      calls := calls + 1;
      var current := event;
      var i := 0;
      while i < |net.hooks|
        invariant 0 <= i <= |net.hooks|
        invariant RunHooks(net.hooks, i, call, current) == RunHooks(net.hooks, 0, call, event)
        invariant calls == call + 1 && sent == old(sent) && !failed && offered == old(offered) + [event]
      {
        match net.hooks[i](call, current) {
          case Abort =>
            failed := true;
            return;
          case Drop =>
            return;
          case Pass(next) =>
            current := next;
        }
        i := i + 1;
      }
      if net.accepts(|sent|) {
        sent := sent + [current];
      } else {
        failed := true;
      }
    }

    method EmitAll(events: seq<AgEvent>)
      requires Valid()
      modifies this
      ensures Valid() && offered == old(offered) + events
    {
      for i := 0 to |events|
        invariant Valid() && offered == old(offered) + events[..i]
      {
        Emit(events[i]);
        assert events[..i + 1] == events[..i] + [events[i]];
      }
      assert events[..|events|] == events;
    }
  }
}
