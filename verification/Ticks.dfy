/** What one cron tick does, read off the request, the record and the runner alone. */
module Ticks {
  import opened Values
  import opened AdkRun
  import opened Cron

  // ----- white space and owners

  predicate Blank(s: string) {
    forall i :: 0 <= i < |s| ==> IsSpace(s[i])
  }

  lemma {:induction false} BlankTrims(s: string)
    ensures TrimSpace(s) == "" <==> Blank(s)
    decreases |s|
  {
    hide IsSpace;
    if s != "" {
      var first, last := s[0], s[|s| - 1];
      if IsSpace(first) {
        BlankTrims(s[1..]);
        assert forall i :: 0 < i < |s| ==> s[i] == s[1..][i - 1];
      } else if IsSpace(last) {
        BlankTrims(s[..|s| - 1]);
      }
    }
  }

  /** A text that neither starts nor ends with white space. */
  predicate Tight(s: string) {
    s != "" && !IsSpace(s[0]) && !IsSpace(s[|s| - 1])
  }

  /** Only white space around a tight text is trimmed. */
  lemma {:induction false} TrimFindsMiddle(before: string, middle: string, after: string)
    requires Blank(before) && Blank(after) && Tight(middle)
    ensures TrimSpace(before + middle + after) == middle
    decreases |before| + |after|
  {
    hide IsSpace;
    var s := before + middle + after;
    if before != "" {
      assert s[0] == before[0] && s[1..] == before[1..] + middle + after;
      TrimFindsMiddle(before[1..], middle, after);
    } else {
      assert s[0] == middle[0];
      if after != "" {
        assert s[|s| - 1] == after[|after| - 1] && s[..|s| - 1] == before + middle + after[..|after| - 1];
        TrimFindsMiddle(before, middle, after[..|after| - 1]);
      } else {
        assert s == middle;
      }
    }
  }

  /** "users/" and an id that is not blank, with white space around it. */
  ghost predicate Owns(owner: string, id: string) {
    && id != "" && !IsSpace(id[|id| - 1])
    && exists before, after :: Blank(before) && Blank(after) && owner == before + ("users/" + id) + after
  }

  lemma UsersPathIsTight(id: string)
    requires id != "" && !IsSpace(id[|id| - 1])
    ensures Tight("users/" + id) && TrimSpace(id) != ""
  {
    var path := "users/" + id;
    assert path[0] == 'u' && path[|path| - 1] == id[|id| - 1];
    BlankTrims(id);
  }

  /** The owner's id is exactly the one the owner field names. */
  lemma OwnerIff(cron: Record, id: string)
    ensures OwnerOf(cron) == Some(id) <==> Owns(cron.owner, id)
  {
    hide IsSpace, TrimSpace;
    var trimmed := TrimSpace(cron.owner);
    if OwnerOf(cron) == Some(id) {
      var before, after := TrimCutsEnds(cron.owner);
      BlankTrims(id);
      assert trimmed == "users/" + id && trimmed[|trimmed| - 1] == id[|id| - 1];
      assert Blank(before) && Blank(after) && cron.owner == before + ("users/" + id) + after;
    }
    if Owns(cron.owner, id) {
      var before, after :| Blank(before) && Blank(after) && cron.owner == before + ("users/" + id) + after;
      UsersPathIsTight(id);
      TrimFindsMiddle(before, "users/" + id, after);
      assert trimmed[..6] == "users/" && trimmed[6..] == id;
    }
  }

  // ----- the runner

  /** A message can be run: prompt and user are given, agent and runner come up. */
  predicate CanRun(env: RunEnv, userId: string, prompt: string) {
    !Blank(prompt) && !Blank(userId) && env.loads && env.creates
  }

  lemma {:induction false} FirstFailureIs(failures: seq<bool>, i: nat)
    requires i <= |failures|
    ensures FirstFailure(failures, i).None? <==> forall k :: i <= k < |failures| ==> !failures[k]
    ensures FirstFailure(failures, i).Some? ==>
              var n := FirstFailure(failures, i).value;
              i <= n < |failures| && failures[n] && forall k :: i <= k < n ==> !failures[k]
    decreases |failures| - i
  {
    if i < |failures| {
      FirstFailureIs(failures, i + 1);
    }
  }

  /** A run succeeds exactly when it can be run and no event of the agent is an error; an
      agent's error is reported exactly at its first failing event. */
  lemma RunSucceedsIff(env: RunEnv, userId: string, sessionId: string, prompt: string)
    ensures var result := RunMessage(env, userId, sessionId, prompt);
            && (result.Ok? <==>
                  CanRun(env, userId, prompt) && forall k :: 0 <= k < |env.failures| ==> !env.failures[k])
            && (forall n: nat :: result == Err(AgentError(n)) <==>
                  && CanRun(env, userId, prompt) && n < |env.failures| && env.failures[n]
                  && forall k :: 0 <= k < n ==> !env.failures[k])
            && (result == Err(PromptRequired) <==> Blank(prompt))
            && (result == Err(UserRequired) <==> !Blank(prompt) && Blank(userId))
            && (result == Err(AgentNotLoaded) <==> !Blank(prompt) && !Blank(userId) && !env.loads)
            && (result == Err(RunnerNotCreated) <==> !Blank(prompt) && !Blank(userId) && env.loads && !env.creates)
  {
    hide TrimSpace, Blank;
    BlankTrims(prompt);
    BlankTrims(userId);
    FirstFailureIs(env.failures, 0);
  }

  // ----- the handler

  /** What is asked of a tick before anything runs. */
  ghost predicate Due(cron: Record, t: Tick) {
    && t.body.Some? && !Blank(t.body.value) && t.found && !cron.state.Archived?
    && (exists id :: Owns(cron.owner, id)) && !Blank(cron.prompt)
  }

  /** A run of the prompt, or of the initial prompt, as the cron's owner. */
  ghost predicate RunsFor(cron: Record, t: Tick, log: RunLog) {
    && Owns(cron.owner, log.userId)
    && log.prompt == (if log.kind.Seed? then cron.initialPrompt else cron.prompt)
    && log.result == RunMessage(if log.kind.Seed? then t.seed else t.main, log.userId, log.sessionId, log.prompt)
  }

  lemma OwnedIff(cron: Record)
    ensures OwnerOf(cron).Some? <==> exists id :: Owns(cron.owner, id)
    ensures OwnerOf(cron).Some? ==> Owns(cron.owner, OwnerOf(cron).value)
  {
    hide OwnerOf, Owns;
    if OwnerOf(cron).Some? {
      OwnerIff(cron, OwnerOf(cron).value);
    }
    if id :| Owns(cron.owner, id) {
      OwnerIff(cron, id);
    }
  }

  /** When the prompt runs. A tick reaches execution exactly when it names a cron that is
      found, not archived, owned and has a prompt; then the prompt runs exactly once, after
      the initial prompt if that is due, unless that fails. A tick that runs nothing is
      answered 200 exactly when it is the archived state that stops it, and 500 otherwise;
      an asynchronous one that runs is always answered 200. */
  lemma TickRuns(cron: Record, t: Tick)
    ensures var a := Handle(cron, t);
            && (a.notes != [] <==> Due(cron, t))
            && (a.notes == [] ==>
                  && a.runs == [] && a.cron == cron
                  && a.status == if t.body.Some? && !Blank(t.body.value) && t.found && cron.state.Archived? then 200
                                 else 500)
            && (a.notes != [] ==>
                  var seeded := cron.kind.Recurring? && cron.contextId == "" && !Blank(cron.initialPrompt);
                  && |a.runs| == (if seeded && a.runs[0].result.Ok? then 2 else 1)
                  && (a.runs[0].kind.Seed? <==> seeded)
                  && (|a.runs| == 2 ==> a.runs[1].kind.Main?)
                  && (forall i :: 0 <= i < |a.runs| ==> RunsFor(cron, t, a.runs[i]))
                  && (!t.sync ==> a.status == 200))
  {
    hide TrimSpace, Blank, RunMessage, OwnerOf, Owns;
    OwnedIff(cron);
    BlankTrims(cron.prompt);
    BlankTrims(cron.initialPrompt);
    if t.body.Some? {
      BlankTrims(t.body.value);
    }
  }
}
