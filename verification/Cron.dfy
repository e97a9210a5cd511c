/** Cron ticks (scheduler/execute.go, scheduler/cron.go). */
module Cron {
  import opened Values
  import opened AdkRun

  datatype Kind = KindUnspecified | Recurring | OneShot

  datatype State = StateUnspecified | Active | Archived

  /** The stored cron, as far as a tick reads or writes it. */
  datatype Record = Record(
    name: string,
    owner: string,
    kind: Kind,
    state: State,
    contextId: string,
    prompt: string,
    initialPrompt: string,
    lastRunTime: Option<int>,
    archiveTime: Option<int>)

  /** The field-mask paths a tick uses: last_run_time, context_id, state and archive_time. */
  datatype MaskPath = LastRunTimePath | ContextIdPath | StatePath | ArchiveTimePath

  datatype CronFault = InitialRunFailed(fault: RunnerFault) | RunFailed(fault: RunnerFault) | PersistFailed

  datatype RunKind = Seed | Main

  /** One call of the runner: for whom, in which session, with which prompt, and what it returned. */
  datatype RunLog = RunLog(
    kind: RunKind,
    userId: string,
    sessionId: string,
    prompt: string,
    result: Result<string, RunnerFault>)

  /** The observer's two callbacks; None means it was told of success. */
  datatype Note = Started | Finished(error: Option<CronFault>)

  /** What one tick meets. `body` is the decoded request, None when it does not decode. */
  datatype Tick = Tick(body: Option<string>, found: bool, seed: RunEnv, main: RunEnv, persists: bool, now: int, sync: bool)

  function OwnerOf(cron: Record): Option<string> {
    var owner := TrimSpace(cron.owner);
    if |owner| < 6 || owner[..6] != "users/" || TrimSpace(owner[6..]) == "" then None else Some(owner[6..])
  }

  function MergeSessionId(existing: string, returned: string): string {
    if returned != "" then returned else existing
  }

  predicate Runnable(cron: Record) {
    TrimSpace(cron.prompt) != ""
  }

  /** Recurring crons without a session start with their initial prompt. */
  predicate NeedsSeed(cron: Record) {
    cron.kind.Recurring? && cron.contextId == "" && TrimSpace(cron.initialPrompt) != ""
  }

  function SetField(stored: Record, update: Record, path: MaskPath): Record {
    match path
    case LastRunTimePath => stored.(lastRunTime := update.lastRunTime)
    case ContextIdPath => stored.(contextId := update.contextId)
    case StatePath => stored.(state := update.state)
    case ArchiveTimePath => stored.(archiveTime := update.archiveTime)
  }

  /** UpdateCron: only the masked fields change. */
  function Masked(stored: Record, update: Record, paths: seq<MaskPath>): Record {
    if paths == [] then stored
    else SetField(Masked(stored, update, paths[..|paths| - 1]), update, paths[|paths| - 1])
  }

  /** What executeCron does: runner calls, the update it asks for, and how it ends. */
  datatype Execution = Execution(runs: seq<RunLog>, update: Option<Record>, paths: seq<MaskPath>, returned: Option<CronFault>)

  /** The fields a completed tick writes. */
  function PathsFor(cron: Record, final: string): seq<MaskPath> {
    var run := [LastRunTimePath];
    var context := if cron.contextId != final && final != "" then run + [ContextIdPath] else run;
    if cron.kind.OneShot? then context + [StatePath, ArchiveTimePath] else context
  }

  function MainRun(cron: Record, ownerId: string, t: Tick, session: string, before: seq<RunLog>): Execution {
    var result := RunMessage(t.main, ownerId, session, cron.prompt);
    var runs := before + [RunLog(Main, ownerId, session, cron.prompt, result)];
    match result
    case Err(fault) => Execution(runs, None, [], Some(RunFailed(fault)))
    case Ok(id) =>
      var final := MergeSessionId(session, id);
      var archived := cron.kind.OneShot?;
      var update := Record(cron.name, "", KindUnspecified, if archived then Archived else StateUnspecified, final, "", "",
                           Some(t.now), if archived then Some(t.now) else None);
      Execution(runs, Some(update), PathsFor(cron, final), None)
  }

  function Execute(cron: Record, ownerId: string, t: Tick): Execution {
    if NeedsSeed(cron) then
      var seeded := RunMessage(t.seed, ownerId, "", cron.initialPrompt);
      var runs := [RunLog(Seed, ownerId, "", cron.initialPrompt, seeded)];
      match seeded
      case Err(fault) => Execution(runs, None, [], Some(InitialRunFailed(fault)))
      case Ok(id) => MainRun(cron, ownerId, t, MergeSessionId(cron.contextId, id), runs)
    else MainRun(cron, ownerId, t, cron.contextId, [])
  }

  /** The error the observer sees: the run's, or else the failed update's. */
  function Observed(e: Execution, persists: bool): Option<CronFault> {
    if e.returned.Some? then e.returned else if persists then None else Some(PersistFailed)
  }

  /** Everything one tick leaves behind. */
  datatype After = After(cron: Record, runs: seq<RunLog>, notes: seq<Note>, status: int, executed: bool)

  function Refused(cron: Record, status: int): After {
    After(cron, [], [], status, false)
  }

  /** The whole handler on the cron named in the request. */
  function Handle(cron: Record, t: Tick): After {
    if t.body.None? || TrimSpace(t.body.value) == "" || !t.found then Refused(cron, 500)
    else if cron.state.Archived? then Refused(cron, 200)
    else if OwnerOf(cron).None? || !Runnable(cron) then Refused(cron, 500)
    else
      var e := Execute(cron, OwnerOf(cron).value, t);
      var stored := if e.update.Some? && t.persists then Masked(cron, e.update.value, e.paths) else cron;
      After(stored, e.runs, [Started, Finished(Observed(e, t.persists))],
            if t.sync && e.returned.Some? then 500 else 200, true)
  }

  /** The scheduler's view of one cron: the stored record and what happened to it. */
  class CronJob {
    var cron: Record
    var runs: seq<RunLog>
    var notes: seq<Note>

    constructor (cron: Record)
      ensures this.cron == cron && runs == [] && notes == []
    {
      this.cron := cron;
      runs, notes := [], [];
    }

    method Run(kind: RunKind, env: RunEnv, ownerId: string, sessionId: string, prompt: string)
      returns (result: Result<string, RunnerFault>)
      modifies this`runs
      ensures result == RunMessage(env, ownerId, sessionId, prompt)
      ensures runs == old(runs) + [RunLog(kind, ownerId, sessionId, prompt, result)]
    {
      result := RunUserMessage(env, ownerId, sessionId, prompt);
      runs := runs + [RunLog(kind, ownerId, sessionId, prompt, result)];
    }

    /** svc.UpdateCron with a field mask. */
    method UpdateCron(update: Record, paths: seq<MaskPath>, persists: bool) returns (ok: bool)
      modifies this`cron
      ensures ok == persists
      ensures cron == if persists then Masked(old(cron), update, paths) else old(cron)
    {
      if !persists {
        return false;
      }
      for i := 0 to |paths|
        invariant cron == Masked(old(cron), update, paths[..i])
      {
        assert paths[..i + 1][..i] == paths[..i];
        cron := SetField(cron, update, paths[i]);
      }
      assert paths[..|paths|] == paths;
      return true;
    }

    /** executeCron on the record `read`; the deferred observer call is made on every path. */
    method ExecuteCron(read: Record, ownerId: string, t: Tick) returns (returned: Option<CronFault>)
      requires read == cron
      modifies this
      ensures var e := Execute(old(cron), ownerId, t);
              && returned == e.returned
              && runs == old(runs) + e.runs
              && cron == (if e.update.Some? && t.persists then Masked(old(cron), e.update.value, e.paths) else old(cron))
              && notes == old(notes) + [Started, Finished(Observed(e, t.persists))]
    {
      notes := notes + [Started];
      var sessionId := read.contextId;
      if read.kind.Recurring? && sessionId == "" && TrimSpace(read.initialPrompt) != "" {
        var seeded := Run(Seed, t.seed, ownerId, "", read.initialPrompt);
        if seeded.Err? {
          returned := Some(InitialRunFailed(seeded.error));
          notes := notes + [Finished(returned)];
          return;
        }
        sessionId := MergeSessionId(sessionId, seeded.value);
      }
      var result := Run(Main, t.main, ownerId, sessionId, read.prompt);
      if result.Err? {
        returned := Some(RunFailed(result.error));
        notes := notes + [Finished(returned)];
        return;
      }
      sessionId := MergeSessionId(sessionId, result.value);
      var update := Record(read.name, "", KindUnspecified, StateUnspecified, sessionId, "", "", Some(t.now), None);
      var paths := [LastRunTimePath];
      if read.contextId != sessionId && sessionId != "" {
        paths := paths + [ContextIdPath];
      }
      if read.kind.OneShot? {
        update := update.(state := Archived, archiveTime := Some(t.now));
        paths := paths + [StatePath, ArchiveTimePath];
      }
      var ok := UpdateCron(update, paths, t.persists);
      notes := notes + [Finished(if ok then None else Some(PersistFailed))];
      return None;
    }

    /** cronHandler; an asynchronous tick is run to its end before the next one. */
    method HandleTick(t: Tick) returns (status: int)
      modifies this
      ensures var a := Handle(old(cron), t);
              cron == a.cron && runs == old(runs) + a.runs && notes == old(notes) + a.notes && status == a.status
    {
      if t.body.None? {
        return 500;
      }
      if TrimSpace(t.body.value) == "" {
        return 500;
      }
      if !t.found {
        return 500;
      }
      if cron.state.Archived? {
        return 200;
      }
      var owner := OwnerOf(cron);
      if owner.None? {
        return 500;
      }
      if !Runnable(cron) {
        return 500;
      }
      var returned := ExecuteCron(cron, owner.value, t);
      if t.sync && returned.Some? {
        return 500;
      }
      return 200;
    }
  }
}
