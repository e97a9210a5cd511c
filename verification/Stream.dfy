/** The stream state and its in-place updates (agui/stream.go), each method proved
    against the functions of StreamSpec whatever the emitter does. */
module Stream {
  import opened Values
  import opened Adk
  import opened Protocol
  import opened Launcher
  import opened Emission
  import opened Sessions
  import opened Convert
  import opened StreamSpec
  import Pointer

  class StreamState {
    var runId: string
    var threadId: string
    var userId: string
    var reqState: Fields
    var currentTextMessageId: string
    var currentReasoningPhaseId: string
    var currentReasoningMessageId: string
    var lastTextMessageId: string
    var currentStepAuthor: string
    var emittedReasoningLen: nat
    var runFinalized: bool
    var emittedInterrupts: seq<Interrupt>
    var idsGenerated: nat

    constructor (runId: string, threadId: string)
      ensures View() == Initial(RunInfo(runId, threadId, "", map[]))
    {
      this.runId, this.threadId := runId, threadId;
      userId, reqState := "", map[];
      currentTextMessageId, currentReasoningPhaseId, currentReasoningMessageId := "", "", "";
      lastTextMessageId, currentStepAuthor := "", "";
      emittedReasoningLen, runFinalized, emittedInterrupts, idsGenerated := 0, false, [], 0;
    }

    function View(): St
      reads this
    {
      St(RunInfo(runId, threadId, userId, reqState), currentTextMessageId, currentReasoningPhaseId,
         currentReasoningMessageId, lastTextMessageId, currentStepAuthor, emittedReasoningLen, runFinalized,
         emittedInterrupts, idsGenerated)
    }

    function Key(): (key: SessionKey)
      reads this
      ensures key == KeyOf(View().run)
    {
      SessionKey(userId, threadId)
    }

    /** The run so far, as the functions of StreamSpec see it. */
    ghost function Now(e: Emitter): Sys
      reads this, e
    {
      Sys(View(), e.offered)
    }

    method GenerateMessageId(cfg: Config) returns (id: string)
      modifies this
      ensures id == cfg.freshId(old(idsGenerated))
      ensures View() == old(View()).(nextId := old(idsGenerated) + 1)
    {
      id := cfg.freshId(idsGenerated);
      idsGenerated := idsGenerated + 1;
    }

    method CloseTextMessage(e: Emitter)
      requires e.Valid()
      modifies this, e
      ensures e.Valid() && Now(e) == CloseText(old(Now(e)))
      ensures View().run == old(View().run)
    {
      if currentTextMessageId == "" {
        return;
      }
      e.Emit(TextEnd(currentTextMessageId));
      lastTextMessageId := currentTextMessageId;
      currentTextMessageId := "";
    }

    method CloseReasoningMessage(e: Emitter)
      requires e.Valid()
      modifies this, e
      ensures e.Valid() && Now(e) == CloseReasoning(old(Now(e)))
      ensures View().run == old(View().run)
    {
      if currentReasoningMessageId != "" {
        e.Emit(ReasoningMessageEnd(currentReasoningMessageId));
        currentReasoningMessageId := "";
      }
      assert Now(e) == CloseThought(old(Now(e)));
      if currentReasoningPhaseId != "" {
        e.Emit(ReasoningEnd(currentReasoningPhaseId));
        currentReasoningPhaseId := "";
      }
      emittedReasoningLen := 0;
    }

    method FinalizeLifecycle(e: Emitter)
      requires e.Valid()
      modifies this, e
      ensures e.Valid() && Now(e) == Finalize(old(Now(e)))
      ensures View().run == old(View().run)
    {
      hide Send, RunHooks, EmitOne;
      CloseTextMessage(e);
      CloseReasoningMessage(e);
      ghost var before := Now(e);
      if currentStepAuthor != "" {
        e.Emit(StepFinished(currentStepAuthor));
        currentStepAuthor := "";
      }
      assert Now(e) == CloseStep(before);
    }

    method ChangeAuthor(e: Emitter, cfg: Config, author: string)
      requires e.Valid()
      modifies this, e
      ensures e.Valid() && Now(e) == ChangeStep(cfg.appName, author, old(Now(e)))
      ensures View().run == old(View().run)
    {
      if author != "" && author != currentStepAuthor {
        if currentStepAuthor != "" {
          e.Emit(StepFinished(currentStepAuthor));
        }
        if author != cfg.appName {
          e.Emit(StepStarted(author));
          currentStepAuthor := author;
        } else {
          currentStepAuthor := "";
        }
      }
    }

    method OpenReasoning(e: Emitter, cfg: Config)
      requires e.Valid()
      modifies this, e
      ensures e.Valid() && Now(e) == OpenThought(cfg, OpenPhase(cfg, old(Now(e))))
      ensures View().run == old(View().run)
    {
      hide Send, RunHooks, EmitOne;
      if currentReasoningPhaseId == "" {
        var id := GenerateMessageId(cfg);
        currentReasoningPhaseId := id;
        e.Emit(ReasoningStart(currentReasoningPhaseId));
      }
      ghost var phased := Now(e);
      assert phased == OpenPhase(cfg, old(Now(e)));
      if currentReasoningMessageId == "" {
        var id := GenerateMessageId(cfg);
        currentReasoningMessageId := id;
        e.Emit(ReasoningMessageStart(currentReasoningMessageId));
      }
    }

    method ProcessThought(e: Emitter, cfg: Config, text: string)
      requires e.Valid()
      modifies this, e
      ensures e.Valid() && Now(e) == Thought(cfg, text, old(Now(e)))
      ensures View().run == old(View().run)
    {
      hide Send, RunHooks, EmitOne;
      if |text| <= emittedReasoningLen {
        return;
      }
      var delta := text[emittedReasoningLen..];
      emittedReasoningLen := |text|;
      CloseTextMessage(e);
      OpenReasoning(e, cfg);
      e.Emit(ReasoningContent(currentReasoningMessageId, delta));
    }

    method ProcessText(e: Emitter, cfg: Config, partial: bool, text: string)
      requires e.Valid()
      modifies this, e
      ensures e.Valid() && Now(e) == Text(cfg, partial, text, old(Now(e)))
      ensures View().run == old(View().run)
    {
      hide Send, RunHooks, EmitOne;
      CloseReasoningMessage(e);
      if !partial {
        return;
      }
      if currentTextMessageId == "" {
        var id := GenerateMessageId(cfg);
        currentTextMessageId := id;
        e.Emit(TextStart(currentTextMessageId));
      }
      e.Emit(TextContent(currentTextMessageId, text));
    }

    /** ToolCallStart, then the encoded arguments and ToolCallEnd; a failed encoding leaves the call open. */
    method EmitToolCall(e: Emitter, cfg: Config, call: FunctionCall) returns (status: Status)
      requires e.Valid()
      modifies e
      ensures e.Valid() && (Now(e), status) == Call(cfg, call, old(Now(e)))
      ensures !status.Done?
    {
      var parent := None;
      if lastTextMessageId != "" {
        parent := Some(lastTextMessageId);
      }
      e.Emit(ToolCallStart(call.id, call.name, parent));
      var args := cfg.marshal(call.args);
      if args.None? {
        return Stop(ArgsMarshal);
      }
      e.Emit(ToolCallArgs(call.id, args.value));
      e.Emit(ToolCallEnd(call.id));
      return Continue;
    }

    method EmitBoundarySnapshots(e: Emitter, cfg: Config, svc: SessionService)
      requires e.Valid()
      modifies e, svc
      ensures e.Valid()
      ensures svc.View() == if userId != "" then Called(old(svc.View())) else old(svc.View())
      ensures var stored := LookupOption(Get(svc.faults, old(svc.View()), Key()));
              Now(e) == BoundarySnapshots(cfg, stored, old(Now(e)))
    {
      hide Send, RunHooks, EmitOne, Snapshot, ConvertSession;
      if userId == "" {
        return;
      }
      var found := svc.GetSession(Key());
      if found.Loaded? {
        var snapshot := BuildStateSnapshot(Some(found.session), reqState);
        if snapshot != map[] {
          e.Emit(StateSnapshot(snapshot));
        }
        var messages := ConvertSessionToMessages(HistoryConfig(cfg), found.session.history);
        if messages.Some? && messages.value != [] {
          e.Emit(MessagesSnapshot(messages.value));
        }
      } else if reqState != map[] {
        var snapshot := BuildStateSnapshot(None, reqState);
        if snapshot != map[] {
          e.Emit(StateSnapshot(snapshot));
        }
      }
    }

    method EmitInterrupt(e: Emitter, cfg: Config, svc: SessionService, call: FunctionCall) returns (status: Status)
      requires e.Valid()
      modifies this, e, svc
      ensures e.Valid()
      ensures var stored := LookupOption(Get(svc.faults, old(svc.View()), old(Key())));
              (Now(e), status) == Interrupting(cfg, stored, call, old(Now(e)))
      ensures svc.View() == AfterPart(old(svc.View()), old(userId), status)
      ensures View().run == old(View().run)
    {
      hide Send, RunHooks, EmitOne, Call, Finalize, BoundarySnapshots, Get;
      var original := cfg.original(call);
      if original.None? {
        return Stop(BadConfirmation);
      }
      FinalizeLifecycle(e);
      var proposal := EmitToolCall(e, cfg, original.value);
      if proposal.Stop? {
        return proposal;
      }
      ghost var proposed := Now(e);
      assert (proposed, Continue) == Call(cfg, original.value, Finalize(old(Now(e))));
      EmitBoundarySnapshots(e, cfg, svc);
      ghost var bounded := Now(e);
      var interrupt := InterruptFor(cfg, call, original.value);
      e.Emit(RunFinished(threadId, runId, Interrupted([interrupt])));
      emittedInterrupts := emittedInterrupts + [interrupt];
      runFinalized := true;
      assert Now(e) == FinishInterrupted(interrupt, bounded);
      return Done;
    }

    /** The body of the part loop. */
    method ProcessPart(e: Emitter, cfg: Config, svc: SessionService, ev: Event, part: Part) returns (status: Status)
      requires e.Valid()
      modifies this, e, svc
      ensures e.Valid()
      ensures var stored := LookupOption(Get(svc.faults, old(svc.View()), old(Key())));
              (Now(e), status) == OnePart(cfg, stored, ev, part, old(Now(e)))
      ensures svc.View() == AfterPart(old(svc.View()), old(userId), status)
      ensures View().run == old(View().run)
    {
      hide Send, RunHooks, EmitOne, Call, Interrupting, CloseText, CloseReasoning, Text, Thought, Get;
      if part.NilPart? {
        return Continue;
      }
      if cfg.converter.Some? {
        var conversion := cfg.converter.value(ev, part);
        if conversion.Broken? {
          return Stop(ConverterFailed);
        }
        if conversion.Handled? {
          e.EmitAll(conversion.events);
          return Continue;
        }
      }
      if part.thought && part.text != "" {
        if ev.partial {
          ProcessThought(e, cfg, part.text);
        }
        return Continue;
      }
      if part.text != "" && !part.thought {
        ProcessText(e, cfg, ev.partial, part.text);
        return Continue;
      }
      if part.call.Some? {
        CloseTextMessage(e);
        CloseReasoningMessage(e);
        if part.call.value.name == CONFIRMATION_NAME {
          status := EmitInterrupt(e, cfg, svc, part.call.value);
        } else {
          status := EmitToolCall(e, cfg, part.call.value);
        }
        return status;
      }
      if part.response.Some? {
        var json := cfg.marshal(part.response.value.response);
        if json.None? {
          return Stop(ResponseMarshal);
        }
        var id := GenerateMessageId(cfg);
        e.Emit(ToolCallResult(id, part.response.value.id, json.value));
      }
      return Continue;
    }

    /** One patch operation per entry of the state delta, in iteration order. */
    method EmitStateDelta(e: Emitter, delta: seq<(string, Value)>)
      requires e.Valid()
      modifies e
      ensures e.Valid() && Now(e) == OfferDelta(delta, old(Now(e)))
    {
      if |delta| > 0 {
        var ops: seq<PatchOp> := [];
        for i := 0 to |delta|
          invariant ops == OpsOf(delta[..i])
        {
          ops := ops + [PatchOp("add", "/" + Pointer.Escape(delta[i].0), delta[i].1)];
          assert OpsOf(delta[..i + 1]) == OpsOf(delta[..i]) + [OpOf(delta[i])];
        }
        assert delta[..|delta|] == delta;
        e.Emit(StateDelta(ops));
      }
    }

    method ProcessEvent(e: Emitter, cfg: Config, svc: SessionService, ev: Event) returns (status: Status)
      requires e.Valid()
      modifies this, e, svc
      ensures e.Valid()
      ensures var stored := LookupOption(Get(svc.faults, old(svc.View()), old(Key())));
              (Now(e), status) == RunEvent(cfg, e.net, stored, ev, old(Now(e)))
      ensures svc.View() == AfterPart(old(svc.View()), old(userId), status)
      ensures View().run == old(View().run)
    {
      hide Send, RunHooks, EmitOne, OnePart, ChangeStep, Finalize, OfferDelta, Get, PartsOf;
      ghost var stored := LookupOption(Get(svc.faults, svc.View(), Key()));
      ChangeAuthor(e, cfg, ev.author);
      ghost var start := Now(e);
      var parts := PartsOf(ev);
      var i := 0;
      while i < |parts|
        invariant 0 <= i <= |parts|
        invariant e.Valid() && svc.View() == old(svc.View())
        invariant View().run == old(View().run)
        invariant RunParts(cfg, e.net, stored, ev, i, Now(e)) == RunParts(cfg, e.net, stored, ev, 0, start)
      {
        if e.failed {
          return Stop(WriteFailed);
        }
        status := ProcessPart(e, cfg, svc, ev, parts[i]);
        if !status.Continue? {
          return status;
        }
        i := i + 1;
      }
      ghost var mid := Now(e);
      assert RunParts(cfg, e.net, stored, ev, 0, start) == (mid, Continue);
      EmitStateDelta(e, ev.delta);
      if ev.turnComplete {
        FinalizeLifecycle(e);
      }
      assert Now(e) == Ending(ev, mid);
      return if e.failed then Stop(WriteFailed) else Continue;
    }
  }
}
