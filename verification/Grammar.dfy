/** The AG-UI event grammar as an automaton, and what acceptance means for a trace. */
module Grammar {
  import opened Values
  import opened Protocol

  /** Abandoned: a call that never gets its arguments, in a run that can only end in error. */
  datatype ToolCallPhase = NoCall | Started(id: string) | WithArgs(id: string) | Abandoned

  /** What is open at one point of a stream. `used` holds every message id opened so far,
      `last` the text message ended most recently. Closed(false): ended inside a tool call. */
  datatype Grammar =
    | Fresh
    | Open(text: string, phase: string, thought: string, step: string, tool: ToolCallPhase,
           used: set<string>, last: string)
    | Closed(clean: bool)

  predicate Unused(g: Grammar, id: string)
    requires g.Open?
  {
    id != "" && id !in g.used
  }

  predicate NothingOpen(g: Grammar)
    requires g.Open?
  {
    g.text == "" && g.phase == "" && g.thought == "" && g.step == ""
  }

  /** One event outside tool calls: at most one of a text message and a reasoning phase is
      open, content carries the open id, steps alternate, a terminal event finds nothing open; a
      tool call hangs off the text message ended last, if any. */
  function NextPlain(g: Grammar, ev: AgEvent): Option<Grammar>
    requires g.Open?
  {
    match ev
    case TextStart(id) =>
      if g.text == "" && g.phase == "" && Unused(g, id) then Some(g.(text := id, used := g.used + {id})) else None
    case TextContent(id, delta) =>
      if id != "" && g.text == id && delta != "" then Some(g) else None
    case TextEnd(id) =>
      if id != "" && g.text == id then Some(g.(text := "", last := id)) else None
    case ReasoningStart(id) =>
      if g.text == "" && g.phase == "" && Unused(g, id) then Some(g.(phase := id, used := g.used + {id})) else None
    case ReasoningMessageStart(id) =>
      if g.phase != "" && g.thought == "" && Unused(g, id) then Some(g.(thought := id, used := g.used + {id})) else None
    case ReasoningContent(id, delta) =>
      if id != "" && g.thought == id && delta != "" then Some(g) else None
    case ReasoningMessageEnd(id) =>
      if id != "" && g.thought == id then Some(g.(thought := "")) else None
    case ReasoningEnd(id) =>
      if id != "" && g.phase == id && g.thought == "" then Some(g.(phase := "")) else None
    case StepStarted(name) =>
      if name != "" && g.step == "" then Some(g.(step := name)) else None
    case StepFinished(name) =>
      if name != "" && g.step == name then Some(g.(step := "")) else None
    case ToolCallStart(id, _, parent) =>
      if g.text == "" && g.phase == "" && parent == (if g.last == "" then None else Some(g.last))
      then Some(g.(tool := Started(id)))
      else None
    case ToolCallResult(id, _, _) =>
      if Unused(g, id) then Some(g.(used := g.used + {id})) else None
    case RunFinished(_, _, _) => if NothingOpen(g) then Some(Closed(true)) else None
    case RunError(_, _) => if NothingOpen(g) then Some(Closed(true)) else None
    case StateSnapshot(_) => Some(g)
    case StateDelta(_) => Some(g)
    case MessagesSnapshot(_) => Some(g)
    case ActivitySnapshot(_, _) => Some(g)
    case Custom(_, _) => Some(g)
    case _ => None
  }

  /** Inside a tool call only its own next event may come. A call that has just started may
      also be abandoned: the open step finishes, if there is one, and the run ends in error. */
  function NextInCall(g: Grammar, ev: AgEvent): Option<Grammar>
    requires g.Open? && !g.tool.NoCall?
  {
    match (g.tool, ev)
    case (Started(id), ToolCallArgs(id', _)) => if id == id' then Some(g.(tool := WithArgs(id))) else None
    case (WithArgs(id), ToolCallEnd(id')) => if id == id' then Some(g.(tool := NoCall)) else None
    case (Started(_), StepFinished(name)) =>
      if name != "" && g.step == name then Some(g.(step := "", tool := Abandoned)) else None
    case (Started(_), RunError(_, _)) => if NothingOpen(g) then Some(Closed(false)) else None
    case (Abandoned, RunError(_, _)) => if NothingOpen(g) then Some(Closed(false)) else None
    case _ => None
  }

  function Next(g: Grammar, ev: AgEvent): Option<Grammar> {
    match g
    case Fresh => if ev.RunStarted? then Some(Open("", "", "", "", NoCall, {}, "")) else None
    case Open(_, _, _, _, tool, _, _) => if tool.NoCall? then NextPlain(g, ev) else NextInCall(g, ev)
    case Closed(_) => None
  }

  /** The automaton after a trace; None once the trace has left the grammar. */
  function Follow(trace: seq<AgEvent>): Option<Grammar> {
    if trace == [] then Some(Fresh)
    else
      var g := Follow(trace[..|trace| - 1]);
      if g.None? then None else Next(g.value, trace[|trace| - 1])
  }

  lemma FollowSnoc(trace: seq<AgEvent>, ev: AgEvent)
    ensures Follow(trace + [ev]) == if Follow(trace).None? then None else Next(Follow(trace).value, ev)
  {
    assert (trace + [ev])[..|trace|] == trace;
  }

  /** A prefix of a trace in the grammar is in the grammar. */
  lemma {:induction false} FollowPrefix(trace: seq<AgEvent>, n: nat)
    requires n <= |trace| && Follow(trace).Some?
    ensures Follow(trace[..n]).Some?
    decreases |trace|
  {
    if n == |trace| {
      assert trace[..n] == trace;
    } else {
      assert trace[..|trace| - 1][..n] == trace[..n];
      FollowPrefix(trace[..|trace| - 1], n);
    }
  }

  lemma FollowStep(trace: seq<AgEvent>, i: nat)
    requires i < |trace| && Follow(trace).Some?
    ensures Follow(trace[..i]).Some? && Follow(trace[..i + 1]).Some?
    ensures Follow(trace[..i + 1]) == Next(Follow(trace[..i]).value, trace[i])
  {
    hide Next;
    FollowPrefix(trace, i);
    FollowPrefix(trace, i + 1);
    assert trace[..i + 1] == trace[..i] + [trace[i]];
    FollowSnoc(trace[..i], trace[i]);
  }

  /** RunStarted leaves Fresh, a terminal event enters Closed, nothing leaves Closed. */
  lemma NextShape(g: Grammar, ev: AgEvent)
    requires Next(g, ev).Some?
    ensures ev.RunStarted? <==> g.Fresh?
    ensures IsTerminal(ev) <==> Next(g, ev).value.Closed?
    ensures !g.Closed? && !Next(g, ev).value.Fresh?
  {
  }

  lemma {:induction false} FreshOnlyAtStart(trace: seq<AgEvent>, n: nat)
    requires n <= |trace| && Follow(trace).Some?
    ensures Follow(trace[..n]).Some? && (Follow(trace[..n]).value.Fresh? <==> n == 0)
  {
    hide Next;
    if n == 0 {
      assert trace[..0] == [];
    } else {
      FollowStep(trace, n - 1);
      NextShape(Follow(trace[..n - 1]).value, trace[n - 1]);
    }
  }

  /** A complete trace starts with its only RunStarted and ends with its only terminal event. */
  lemma CompleteTraceShape(trace: seq<AgEvent>)
    requires Follow(trace).Some? && Follow(trace).value.Closed?
    ensures |trace| >= 2
    ensures forall i :: 0 <= i < |trace| ==> (trace[i].RunStarted? <==> i == 0)
    ensures forall i :: 0 <= i < |trace| ==> (IsTerminal(trace[i]) <==> i == |trace| - 1)
  {
    hide Next;
    assert trace[..|trace|] == trace;
    FreshOnlyAtStart(trace, |trace|);
    forall i | 0 <= i < |trace|
      ensures trace[i].RunStarted? <==> i == 0
      ensures IsTerminal(trace[i]) <==> i == |trace| - 1
    {
      FollowStep(trace, i);
      FreshOnlyAtStart(trace, i);
      NextShape(Follow(trace[..i]).value, trace[i]);
      if i + 1 < |trace| {
        FollowStep(trace, i + 1);
        NextShape(Follow(trace[..i + 1]).value, trace[i + 1]);
      }
    }
    assert trace[0].RunStarted? && IsTerminal(trace[|trace| - 1]);
  }

  // ----- brackets

  /** Text messages, reasoning phases and the reasoning messages inside them. */
  datatype Bracket = TextBracket | PhaseBracket | ThoughtBracket

  /** The id under which a bracket is open; "" when it is not. */
  function OpenIn(g: Grammar, b: Bracket): string
    requires g.Open?
  {
    match b
    case TextBracket => g.text
    case PhaseBracket => g.phase
    case ThoughtBracket => g.thought
  }

  function Opening(b: Bracket, id: string): AgEvent {
    match b
    case TextBracket => TextStart(id)
    case PhaseBracket => ReasoningStart(id)
    case ThoughtBracket => ReasoningMessageStart(id)
  }

  function Closing(b: Bracket, id: string): AgEvent {
    match b
    case TextBracket => TextEnd(id)
    case PhaseBracket => ReasoningEnd(id)
    case ThoughtBracket => ReasoningMessageEnd(id)
  }

  /** What may come inside a bracket: no other text message, reasoning phase or tool call,
      not the end of the run, and no second bracket of its kind. */
  predicate Inside(b: Bracket, ev: AgEvent) {
    && !ev.TextStart? && !ev.ReasoningStart? && !ev.ToolCallStart? && !IsTerminal(ev)
    && match b
       case TextBracket => !ev.TextEnd?
       case PhaseBracket => !ev.ReasoningEnd?
       case ThoughtBracket => !ev.ReasoningMessageStart? && !ev.ReasoningMessageEnd? && !ev.ReasoningEnd?
  }

  /** A reasoning message is open only inside a phase. */
  predicate Nested(g: Grammar) {
    g.Open? && g.thought != "" ==> g.phase != ""
  }

  lemma NestedStep(g: Grammar, ev: AgEvent)
    requires Nested(g) && Next(g, ev).Some?
    ensures Nested(Next(g, ev).value)
  {
  }

  lemma TextStep(g: Grammar, ev: AgEvent)
    requires Next(g, ev).Some? && Next(g, ev).value.Open? && Next(g, ev).value.text != ""
    ensures ev == TextStart(Next(g, ev).value.text) ||
            (g.Open? && g.text == Next(g, ev).value.text && Inside(TextBracket, ev))
  {
  }

  lemma PhaseStep(g: Grammar, ev: AgEvent)
    requires Next(g, ev).Some? && Next(g, ev).value.Open? && Next(g, ev).value.phase != ""
    ensures ev == ReasoningStart(Next(g, ev).value.phase) ||
            (g.Open? && g.phase == Next(g, ev).value.phase && Inside(PhaseBracket, ev))
  {
  }

  lemma ThoughtStep(g: Grammar, ev: AgEvent)
    requires Nested(g) && Next(g, ev).Some? && Next(g, ev).value.Open? && Next(g, ev).value.thought != ""
    ensures ev == ReasoningMessageStart(Next(g, ev).value.thought) ||
            (g.Open? && g.thought == Next(g, ev).value.thought && Inside(ThoughtBracket, ev))
  {
  }

  /** One step of an open bracket: opened by its start, kept by what may come inside. */
  lemma BracketStep(g: Grammar, ev: AgEvent, b: Bracket)
    requires Nested(g) && Next(g, ev).Some? && Next(g, ev).value.Open? && OpenIn(Next(g, ev).value, b) != ""
    ensures var id := OpenIn(Next(g, ev).value, b);
            ev == Opening(b, id) || (g.Open? && OpenIn(g, b) == id && Inside(b, ev))
  {
    hide Next, Inside, Nested;
    match b
    case TextBracket => TextStep(g, ev);
    case PhaseBracket => PhaseStep(g, ev);
    case ThoughtBracket => ThoughtStep(g, ev);
  }

  lemma {:induction false} AlwaysNested(trace: seq<AgEvent>, n: nat)
    requires n <= |trace| && Follow(trace).Some?
    ensures Follow(trace[..n]).Some? && Nested(Follow(trace[..n]).value)
  {
    hide Next;
    FollowPrefix(trace, n);
    if n > 0 {
      AlwaysNested(trace, n - 1);
      FollowStep(trace, n - 1);
      NestedStep(Follow(trace[..n - 1]).value, trace[n - 1]);
    }
  }

  /** A bracket open after n events was opened before, with only what may come inside since. */
  lemma {:induction false} OpenWasOpened(trace: seq<AgEvent>, n: nat, b: Bracket) returns (j: nat)
    requires n <= |trace| && Follow(trace).Some?
    requires Follow(trace[..n]).Some? && Follow(trace[..n]).value.Open? && OpenIn(Follow(trace[..n]).value, b) != ""
    ensures j < n && trace[j] == Opening(b, OpenIn(Follow(trace[..n]).value, b))
    ensures forall k :: j < k < n ==> Inside(b, trace[k])
  {
    hide Next, Inside;
    FreshOnlyAtStart(trace, n);
    FollowStep(trace, n - 1);
    AlwaysNested(trace, n - 1);
    BracketStep(Follow(trace[..n - 1]).value, trace[n - 1], b);
    if trace[n - 1] == Opening(b, OpenIn(Follow(trace[..n]).value, b)) {
      j := n - 1;
    } else {
      j := OpenWasOpened(trace, n - 1, b);
    }
  }

  /** Every text delta lies inside the bracket of its own message. */
  lemma TextContentIsBracketed(trace: seq<AgEvent>, i: nat) returns (j: nat)
    requires i < |trace| && Follow(trace).Some? && trace[i].TextContent?
    ensures j < i && trace[j] == TextStart(trace[i].id)
    ensures forall k :: j < k < i ==> Inside(TextBracket, trace[k])
  {
    FollowStep(trace, i);
    j := OpenWasOpened(trace, i, TextBracket);
  }

  lemma ReasoningNeedsOpen(g: Grammar, ev: AgEvent)
    requires Next(g, ev).Some?
    ensures ev.ReasoningContent? ==> g.Open? && g.thought == ev.id != ""
    ensures ev.ReasoningMessageStart? ==> g.Open? && g.phase != ""
  {
  }

  /** Every reasoning delta lies inside the bracket of its own message, and that message
      inside a phase that is still the same at the delta. */
  lemma ReasoningContentIsBracketed(trace: seq<AgEvent>, i: nat) returns (p: nat, m: nat)
    requires i < |trace| && Follow(trace).Some? && trace[i].ReasoningContent?
    ensures p < m < i && trace[p].ReasoningStart? && trace[m] == ReasoningMessageStart(trace[i].id)
    ensures forall k :: m < k < i ==> Inside(ThoughtBracket, trace[k])
    ensures forall k :: p < k < i ==> Inside(PhaseBracket, trace[k])
  {
    hide Next;
    FollowStep(trace, i);
    ReasoningNeedsOpen(Follow(trace[..i]).value, trace[i]);
    m := OpenWasOpened(trace, i, ThoughtBracket);
    FollowStep(trace, m);
    ReasoningNeedsOpen(Follow(trace[..m]).value, trace[m]);
    p := OpenWasOpened(trace, m, PhaseBracket);
  }

  /** While a bracket or a step is open only its own end changes it; the run cannot end. */
  lemma StaysOpen(g: Grammar, ev: AgEvent, b: Bracket)
    requires Next(g, ev).Some? && g.Open?
    ensures OpenIn(g, b) != "" && ev != Closing(b, OpenIn(g, b)) ==>
              Next(g, ev).value.Open? && OpenIn(Next(g, ev).value, b) == OpenIn(g, b)
    ensures g.step != "" && ev != StepFinished(g.step) ==> Next(g, ev).value.Open? && Next(g, ev).value.step == g.step
  {
  }

  lemma {:induction false} OpenEndsAfter(trace: seq<AgEvent>, n: nat, b: Bracket, id: string) returns (j: nat)
    requires n <= |trace| && Follow(trace).Some? && Follow(trace).value.Closed? && id != ""
    requires Follow(trace[..n]).Some? && Follow(trace[..n]).value.Open? && OpenIn(Follow(trace[..n]).value, b) == id
    ensures n <= j < |trace| && trace[j] == Closing(b, id)
    decreases |trace| - n
  {
    hide Next;
    assert trace[..|trace|] == trace;
    FollowStep(trace, n);
    StaysOpen(Follow(trace[..n]).value, trace[n], b);
    if trace[n] == Closing(b, id) {
      j := n;
    } else {
      j := OpenEndsAfter(trace, n + 1, b, id);
    }
  }

  /** In a complete trace every text message, reasoning phase and reasoning message that
      starts also ends. */
  lemma StartedEnds(trace: seq<AgEvent>, i: nat, b: Bracket, id: string) returns (j: nat)
    requires i < |trace| && Follow(trace).Some? && Follow(trace).value.Closed? && trace[i] == Opening(b, id)
    ensures i < j < |trace| && trace[j] == Closing(b, id)
  {
    FollowStep(trace, i);
    j := OpenEndsAfter(trace, i + 1, b, id);
  }

  lemma {:induction false} StepEndsAfter(trace: seq<AgEvent>, n: nat, name: string) returns (j: nat)
    requires n <= |trace| && Follow(trace).Some? && Follow(trace).value.Closed? && name != ""
    requires Follow(trace[..n]).Some? && Follow(trace[..n]).value.Open? && Follow(trace[..n]).value.step == name
    ensures n <= j < |trace| && trace[j] == StepFinished(name)
    ensures forall k :: n <= k < j ==> !trace[k].StepStarted? && !trace[k].StepFinished?
    decreases |trace| - n
  {
    hide Next;
    assert trace[..|trace|] == trace;
    FollowStep(trace, n);
    StaysOpen(Follow(trace[..n]).value, trace[n], TextBracket);
    StepsAlternate(Follow(trace[..n]).value, trace[n]);
    if trace[n] == StepFinished(name) {
      j := n;
    } else {
      j := StepEndsAfter(trace, n + 1, name);
    }
  }

  lemma StepsAlternate(g: Grammar, ev: AgEvent)
    requires Next(g, ev).Some? && g.Open? && g.step != ""
    ensures !ev.StepStarted? && (ev.StepFinished? ==> ev.step == g.step)
  {
  }

  /** In a complete trace the next step event after a start is the matching finish. */
  lemma StartedStepFinishes(trace: seq<AgEvent>, i: nat) returns (j: nat)
    requires i < |trace| && Follow(trace).Some? && Follow(trace).value.Closed? && trace[i].StepStarted?
    ensures i < j < |trace| && trace[j] == StepFinished(trace[i].step)
    ensures forall k :: i < k < j ==> !trace[k].StepStarted? && !trace[k].StepFinished?
  {
    FollowStep(trace, i);
    j := StepEndsAfter(trace, i + 1, trace[i].step);
  }

  // ----- tool calls

  lemma ToolCallStep(g: Grammar, ev: AgEvent)
    requires Next(g, ev).Some?
    ensures ev.ToolCallStart? ==> Next(g, ev).value.Open? && Next(g, ev).value.tool == Started(ev.callId)
    ensures g.Open? && g.tool.Started? ==>
              || (ev.ToolCallArgs? && ev.callId == g.tool.id
                  && Next(g, ev).value.Open? && Next(g, ev).value.tool == WithArgs(g.tool.id))
              || (ev.StepFinished? && Next(g, ev).value.Open? && Next(g, ev).value.tool == Abandoned)
              || (ev.RunError? && Next(g, ev).value == Closed(false))
    ensures g.Open? && g.tool.WithArgs? ==> ev == ToolCallEnd(g.tool.id)
    ensures g.Open? && g.tool.Abandoned? ==> ev.RunError? && Next(g, ev).value == Closed(false)
  {
  }

  /** The call at event i is emitted as start, arguments and end with nothing in between. */
  predicate Atomic(trace: seq<AgEvent>, i: nat) {
    && i + 2 < |trace| && trace[i].ToolCallStart? && trace[i + 1].ToolCallArgs?
    && trace[i + 1].callId == trace[i].callId && trace[i + 2] == ToolCallEnd(trace[i].callId)
  }

  /** Tool calls are atomic. In a complete trace every start is followed at once by its own
      arguments and its own end, but for one: a run that ends inside a tool call ends within
      two events of that call's start, in an error. */
  lemma ToolCallIsAtomic(trace: seq<AgEvent>, i: nat)
    requires i < |trace| && Follow(trace).Some? && Follow(trace).value.Closed? && trace[i].ToolCallStart?
    ensures || Atomic(trace, i)
            || (!Follow(trace).value.clean && i + 2 <= |trace| <= i + 3 && trace[|trace| - 1].RunError?
                && (|trace| == i + 3 ==> trace[i + 1].StepFinished?))
  {
    hide Next;
    assert trace[..|trace|] == trace;
    FollowStep(trace, i);
    ToolCallStep(Follow(trace[..i]).value, trace[i]);
    FollowStep(trace, i + 1);
    ToolCallStep(Follow(trace[..i + 1]).value, trace[i + 1]);
    if trace[i + 1].RunError? {
      ClosedIsLast(trace, i + 2);
    } else {
      FollowStep(trace, i + 2);
      ToolCallStep(Follow(trace[..i + 2]).value, trace[i + 2]);
      if trace[i + 2].RunError? {
        ClosedIsLast(trace, i + 3);
      }
    }
  }

  lemma ClosedIsLast(trace: seq<AgEvent>, n: nat)
    requires n <= |trace| && Follow(trace).Some? && Follow(trace[..n]).Some? && Follow(trace[..n]).value.Closed?
    ensures n == |trace|
  {
    if n < |trace| {
      FollowStep(trace, n);
    }
  }

  lemma ToolCallBefore(g: Grammar, ev: AgEvent)
    requires Next(g, ev).Some? && Next(g, ev).value.Open?
    ensures Next(g, ev).value.tool.Started? ==> ev.ToolCallStart? && ev.callId == Next(g, ev).value.tool.id
    ensures Next(g, ev).value.tool.WithArgs? ==>
              ev.ToolCallArgs? && g.Open? && g.tool == Started(Next(g, ev).value.tool.id) && ev.callId == g.tool.id
  {
  }

  /** No stray tool call events: arguments come right after their start, an end right after
      its arguments. */
  lemma ToolCallEventsBelong(trace: seq<AgEvent>, i: nat)
    requires i < |trace| && Follow(trace).Some?
    ensures trace[i].ToolCallArgs? ==> 0 < i && trace[i - 1].ToolCallStart? && trace[i - 1].callId == trace[i].callId
    ensures trace[i].ToolCallEnd? ==> 2 <= i && Atomic(trace, i - 2)
  {
    hide Next;
    FollowStep(trace, i);
    FreshOnlyAtStart(trace, i);
    NeedsCall(Follow(trace[..i]).value, trace[i]);
    if trace[i].ToolCallArgs? || trace[i].ToolCallEnd? {
      FollowStep(trace, i - 1);
      ToolCallBefore(Follow(trace[..i - 1]).value, trace[i - 1]);
      if trace[i].ToolCallEnd? {
        FreshOnlyAtStart(trace, i - 1);
        FollowStep(trace, i - 2);
        ToolCallBefore(Follow(trace[..i - 2]).value, trace[i - 2]);
      }
    }
  }

  lemma NeedsCall(g: Grammar, ev: AgEvent)
    requires Next(g, ev).Some?
    ensures ev.ToolCallArgs? ==> g.Open? && g.tool == Started(ev.callId)
    ensures ev.ToolCallEnd? ==> g.Open? && g.tool == WithArgs(ev.callId)
  {
  }

  // ----- message ids

  predicate OpensMessage(ev: AgEvent) {
    ev.TextStart? || ev.ReasoningStart? || ev.ReasoningMessageStart? || ev.ToolCallResult?
  }

  lemma UsedStep(g: Grammar, ev: AgEvent)
    requires Next(g, ev).Some?
    ensures g.Open? && Next(g, ev).value.Open? ==> g.used <= Next(g, ev).value.used
    ensures OpensMessage(ev) ==> g.Open? && ev.id !in g.used && Next(g, ev).value.Open? && ev.id in Next(g, ev).value.used
    ensures !g.Closed?
  {
  }

  lemma {:induction false} OpenedIsUsed(trace: seq<AgEvent>, i: nat, n: nat)
    requires i < n <= |trace| && Follow(trace).Some? && OpensMessage(trace[i])
    ensures Follow(trace[..n]).Some?
    ensures Follow(trace[..n]).value.Open? ==> trace[i].id in Follow(trace[..n]).value.used
    ensures !Follow(trace[..n]).value.Fresh?
  {
    hide Next;
    FollowStep(trace, n - 1);
    FreshOnlyAtStart(trace, n);
    UsedStep(Follow(trace[..n - 1]).value, trace[n - 1]);
    if i < n - 1 {
      OpenedIsUsed(trace, i, n - 1);
    }
  }

  /** No message id is opened twice in a stream. */
  lemma OpenedIdsAreDistinct(trace: seq<AgEvent>, i: nat, j: nat)
    requires i < j < |trace| && Follow(trace).Some? && OpensMessage(trace[i]) && OpensMessage(trace[j])
    ensures trace[i].id != trace[j].id
  {
    hide Next;
    OpenedIsUsed(trace, i, j);
    FollowStep(trace, j);
    UsedStep(Follow(trace[..j]).value, trace[j]);
  }
}
