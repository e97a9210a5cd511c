/** What interceptors and writer make of the offered events, whatever the interceptors do. */
module Interceptors {
  import opened Protocol
  import opened Emission

  /** An event handed from hook to hook: `steps[i]` is what hook i is given. */
  predicate Handed(hooks: seq<Hook>, call: nat, steps: seq<AgEvent>) {
    && 0 < |steps| <= |hooks| + 1
    && forall i :: 0 <= i < |steps| - 1 ==> hooks[i](call, steps[i]) == Pass(steps[i + 1])
  }

  lemma {:induction false} HandedFrom(hooks: seq<Hook>, i: nat, call: nat, ev: AgEvent) returns (steps: seq<AgEvent>)
    requires i <= |hooks|
    ensures Handed(hooks[i..], call, steps) && steps[0] == ev
    ensures var last := |steps| - 1;
            RunHooks(hooks, i, call, ev) ==
            if i + last == |hooks| then Pass(steps[last]) else hooks[i + last](call, steps[last])
    ensures i + |steps| <= |hooks| ==> !RunHooks(hooks, i, call, ev).Pass?
    decreases |hooks| - i
  {
    steps := [ev];
    if i < |hooks| && hooks[i](call, ev).Pass? {
      var next := hooks[i](call, ev).event;
      var rest := HandedFrom(hooks, i + 1, call, next);
      steps := [ev] + rest;
      forall j | 0 <= j < |steps| - 1
        ensures hooks[i..][j](call, steps[j]) == Pass(steps[j + 1])
      {
        if j > 0 {
          assert hooks[i + 1..][j - 1](call, rest[j - 1]) == Pass(rest[j]);
        }
      }
    }
  }

  /** Each hook is given what the one before it passed on, the first one the event itself;
      the first that drops or aborts decides, otherwise the last event passed on is the outcome. */
  lemma HooksAreAChain(hooks: seq<Hook>, call: nat, ev: AgEvent) returns (steps: seq<AgEvent>)
    ensures Handed(hooks, call, steps) && steps[0] == ev
    ensures var verdict, last := RunHooks(hooks, 0, call, ev), |steps| - 1;
            if last == |hooks| then verdict == Pass(steps[last])
            else !verdict.Pass? && hooks[last](call, steps[last]) == verdict
  {
    steps := HandedFrom(hooks, 0, call, ev);
    assert hooks[0..] == hooks;
  }

  /** What the hooks pass on of some events; dropped ones leave no trace. */
  function PassedOn(hooks: seq<Hook>, offered: seq<AgEvent>): seq<AgEvent> {
    if offered == [] then []
    else
      var front, k := PassedOn(hooks, offered[..|offered| - 1]), |offered| - 1;
      match RunHooks(hooks, 0, k, offered[k])
      case Pass(out) => front + [out]
      case _ => front
  }

  lemma PassedOnSnoc(hooks: seq<Hook>, offered: seq<AgEvent>, ev: AgEvent)
    ensures PassedOn(hooks, offered + [ev]) ==
            PassedOn(hooks, offered) +
            match RunHooks(hooks, 0, |offered|, ev) case Pass(out) => [out] case _ => []
  {
    assert (offered + [ev])[..|offered|] == offered;
  }

  /** Nothing stops the emitter: no hook aborts and the writer takes all that is passed on. */
  predicate Undisturbed(net: Net, offered: seq<AgEvent>) {
    && (forall k :: 0 <= k < |offered| ==> !RunHooks(net.hooks, 0, k, offered[k]).Abort?)
    && (forall j :: 0 <= j < |PassedOn(net.hooks, offered)| ==> net.accepts(j))
  }

  lemma UndisturbedSnoc(net: Net, offered: seq<AgEvent>, ev: AgEvent)
    ensures Undisturbed(net, offered + [ev]) <==>
              && Undisturbed(net, offered)
              && !RunHooks(net.hooks, 0, |offered|, ev).Abort?
              && (RunHooks(net.hooks, 0, |offered|, ev).Pass? ==> net.accepts(|PassedOn(net.hooks, offered)|))
  {
    hide RunHooks, PassedOn;
    PassedOnSnoc(net.hooks, offered, ev);
    var all := offered + [ev];
    assert all[|offered|] == ev;
    assert forall k :: 0 <= k < |offered| ==> all[k] == offered[k];
  }

  lemma {:induction false} UndisturbedSends(net: Net, offered: seq<AgEvent>)
    ensures Send(net, offered).failed <==> !Undisturbed(net, offered)
    ensures Undisturbed(net, offered) ==> Send(net, offered) == Wire(|offered|, PassedOn(net.hooks, offered), false)
  {
    hide RunHooks, PassedOn, Undisturbed;
    if offered == [] {
      NothingDisturbs(net);
    } else {
      var front, last := offered[..|offered| - 1], offered[|offered| - 1];
      UndisturbedSends(net, front);
      UndisturbedSnoc(net, front, last);
      PassedOnSnoc(net.hooks, front, last);
      assert offered == front + [last];
    }
  }

  lemma NothingDisturbs(net: Net)
    ensures Undisturbed(net, []) && PassedOn(net.hooks, []) == []
  {
  }

  /** The wire of any net. Undisturbed, it is exactly what the hooks pass on of each event, in
      order: rewritten as they rewrite it, without what they drop. Otherwise it is that up to
      the first event at which a hook aborts or the writer refuses what was passed on. */
  lemma {:induction false} WireIs(net: Net, offered: seq<AgEvent>) returns (n: nat)
    ensures n <= |offered| && Undisturbed(net, offered[..n])
    ensures Send(net, offered).sent == PassedOn(net.hooks, offered[..n])
    ensures Send(net, offered).failed <==> n < |offered|
    ensures n < |offered| ==>
              var verdict := RunHooks(net.hooks, 0, n, offered[n]);
              verdict.Abort? || (verdict.Pass? && !net.accepts(|PassedOn(net.hooks, offered[..n])|))
    decreases |offered|
  {
    hide RunHooks, PassedOn, Undisturbed, Send;
    UndisturbedSends(net, offered);
    assert offered[..|offered|] == offered;
    n := |offered|;
    if Send(net, offered).failed {
      n := FirstDisturbance(net, offered);
      UndisturbedSends(net, offered[..n + 1]);
      FailureAbsorbs(net, offered[..n + 1], offered[n + 1..]);
      assert offered == offered[..n + 1] + offered[n + 1..];
      SendSnoc(net, offered[..n], offered[n]);
      UndisturbedSends(net, offered[..n]);
      UndisturbedSnoc(net, offered[..n], offered[n]);
      assert offered[..n + 1] == offered[..n] + [offered[n]];
    }
  }

  lemma {:induction false} FirstDisturbance(net: Net, offered: seq<AgEvent>) returns (n: nat)
    requires !Undisturbed(net, offered)
    ensures n < |offered| && Undisturbed(net, offered[..n]) && !Undisturbed(net, offered[..n + 1])
    decreases |offered|
  {
    hide Undisturbed;
    assert offered[..|offered|] == offered;
    if offered == [] {
      NothingDisturbs(net);
    }
    n := |offered| - 1;
    if !Undisturbed(net, offered[..n]) {
      var front := offered[..n];
      n := FirstDisturbance(net, front);
      assert front[..n] == offered[..n] && front[..n + 1] == offered[..n + 1];
    }
  }
}
