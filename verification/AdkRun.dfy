/** Running one user message through the agent (internal/adkrun/runtime.go). */
module AdkRun {
  import opened Values
  import Pointer

  predicate IsSpace(c: char) {
    c == ' ' || c == '\t' || c == '\n' || c == '\r' || c == (11 as char) || c == (12 as char)
  }

  /** strings.TrimSpace on ASCII white space. */
  function TrimSpace(s: string): string {
    if s == "" then ""
    else if IsSpace(s[0]) then TrimSpace(s[1..])
    else if IsSpace(s[|s| - 1]) then TrimSpace(s[..|s| - 1])
    else s
  }

  datatype RunnerFault = PromptRequired | UserRequired | AgentNotLoaded | RunnerNotCreated | AgentError(event: nat)

  /** What one run meets: the UUID it may draw, whether agent and runner come up, and
      which of the yielded events is an error. */
  datatype RunEnv = RunEnv(uuid: string, loads: bool, creates: bool, failures: seq<bool>)

  /** The textual form of a UUID: 36 characters, hyphens at four places. */
  predicate IsUuid(s: string) {
    |s| == 36 && forall i :: 0 <= i < 36 ==> (s[i] == '-' <==> i in {8, 13, 18, 23})
  }

  /** The session a run continues: the given one, or a new id without hyphens. */
  function SessionFor(env: RunEnv, sessionId: string): string {
    if sessionId != "" then sessionId else Pointer.ReplaceAll(env.uuid, "-", "")
  }

  /** The first failing event. */
  function FirstFailure(failures: seq<bool>, i: nat): Option<nat>
    requires i <= |failures|
    decreases |failures| - i
  {
    if i == |failures| then None
    else if failures[i] then Some(i)
    else FirstFailure(failures, i + 1)
  }

  function RunMessage(env: RunEnv, userId: string, sessionId: string, prompt: string): Result<string, RunnerFault> {
    if TrimSpace(prompt) == "" then Err(PromptRequired)
    else if TrimSpace(userId) == "" then Err(UserRequired)
    else if !env.loads then Err(AgentNotLoaded)
    else if !env.creates then Err(RunnerNotCreated)
    else
      match FirstFailure(env.failures, 0)
      case Some(i) => Err(AgentError(i))
      case None => Ok(SessionFor(env, sessionId))
  }

  method RunUserMessage(env: RunEnv, userId: string, sessionId: string, prompt: string)
    returns (result: Result<string, RunnerFault>)
    ensures result == RunMessage(env, userId, sessionId, prompt)
  {
    if TrimSpace(prompt) == "" {
      return Err(PromptRequired);
    }
    if TrimSpace(userId) == "" {
      return Err(UserRequired);
    }
    var session := sessionId;
    if session == "" {
      session := Pointer.ReplaceAll(env.uuid, "-", "");
    }
    if !env.loads {
      return Err(AgentNotLoaded);
    }
    if !env.creates {
      return Err(RunnerNotCreated);
    }
    var i := 0;
    while i < |env.failures|
      invariant 0 <= i <= |env.failures|
      invariant FirstFailure(env.failures, i) == FirstFailure(env.failures, 0)
    {
      if env.failures[i] {
        return Err(AgentError(i));
      }
      i := i + 1;
    }
    return Ok(session);
  }

  lemma {:induction false} StripLeavesNoHyphen(s: string)
    ensures forall i :: 0 <= i < |Pointer.ReplaceAll(s, "-", "")| ==> Pointer.ReplaceAll(s, "-", "")[i] != '-'
    ensures s != "" && s[0] != '-' ==> Pointer.ReplaceAll(s, "-", "") != ""
  {
    if s != "" {
      StripLeavesNoHyphen(s[1..]);
      assert s == [s[0]] + s[1..];
      if s[0] == '-' {
        Pointer.ReplaceOne('-', s[1..], "");
      } else {
        Pointer.ReplaceOther(s[0], s[1..], "-", "");
      }
    }
  }

  /** A completed run returns the given session, or a new non-empty one without hyphens. */
  lemma RunKeepsSession(env: RunEnv, userId: string, sessionId: string, prompt: string)
    requires IsUuid(env.uuid) && RunMessage(env, userId, sessionId, prompt).Ok?
    ensures var id := RunMessage(env, userId, sessionId, prompt).value;
            && id != ""
            && (sessionId != "" ==> id == sessionId)
            && (sessionId == "" ==> '-' !in id)
  {
    StripLeavesNoHyphen(env.uuid);
  }

  /** Trimming cuts white space from both ends and nothing else. */
  lemma {:induction false} TrimCutsEnds(s: string) returns (before: string, after: string)
    ensures s == before + TrimSpace(s) + after
    ensures forall i :: 0 <= i < |before| ==> IsSpace(before[i])
    ensures forall i :: 0 <= i < |after| ==> IsSpace(after[i])
    ensures TrimSpace(s) != "" ==> !IsSpace(TrimSpace(s)[0]) && !IsSpace(TrimSpace(s)[|TrimSpace(s)| - 1])
    decreases |s|
  {
    hide IsSpace;
    before, after := "", "";
    if s != "" && IsSpace(s[0]) {
      before, after := TrimCutsEnds(s[1..]);
      assert s == [s[0]] + s[1..];
      assert [s[0]] + (before + TrimSpace(s[1..]) + after) == ([s[0]] + before) + TrimSpace(s[1..]) + after;
      before := [s[0]] + before;
    } else if s != "" && IsSpace(s[|s| - 1]) {
      var front, last := s[..|s| - 1], [s[|s| - 1]];
      before, after := TrimCutsEnds(front);
      assert s == front + last;
      assert (before + TrimSpace(front) + after) + last == before + TrimSpace(front) + (after + last);
      after := after + last;
    }
  }
}
