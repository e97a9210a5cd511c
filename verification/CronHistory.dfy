/** What holds over any sequence of ticks on one cron. */
module CronHistory {
  import opened Values
  import opened AdkRun
  import opened Cron
  import Pointer

  /** Both runners draw real UUIDs. */
  predicate Uuids(t: Tick) {
    IsUuid(t.seed.uuid) && IsUuid(t.main.uuid)
  }

  predicate AllUuids(ticks: seq<Tick>) {
    forall i :: 0 <= i < |ticks| ==> Uuids(ticks[i])
  }

  /** The record before tick n of a history. */
  function At(cron: Record, ticks: seq<Tick>, n: nat): Record
    requires n <= |ticks|
  {
    if n == 0 then cron else Handle(At(cron, ticks, n - 1), ticks[n - 1]).cron
  }

  function Step(cron: Record, ticks: seq<Tick>, n: nat): After
    requires n < |ticks|
  {
    Handle(At(cron, ticks, n), ticks[n])
  }

  predicate Seeds(a: After) {
    exists i :: 0 <= i < |a.runs| && a.runs[i].kind.Seed?
  }

  /** The main run of the tick took place and succeeded. */
  predicate Completed(a: After) {
    exists i :: 0 <= i < |a.runs| && a.runs[i].kind.Main? && a.runs[i].result.Ok?
  }

  // ----- one tick

  /** A tick writes nothing but the last run time, the context id, and for one-shot crons
      the archival; and it writes nothing at all unless the main run completed and the update went through. */
  lemma TickWrites(cron: Record, t: Tick)
    requires Uuids(t)
    ensures var a := Handle(cron, t);
            && a.cron.(lastRunTime := cron.lastRunTime, contextId := cron.contextId, state := cron.state,
                       archiveTime := cron.archiveTime) == cron
            && (!(Completed(a) && t.persists) ==> a.cron == cron)
            && (Completed(a) && t.persists ==>
                  && a.cron.lastRunTime == Some(t.now)
                  && a.cron.contextId != ""
                  && (cron.contextId != "" ==> a.cron.contextId == cron.contextId)
                  && (if cron.kind.OneShot? then a.cron.state.Archived? && a.cron.archiveTime == Some(t.now)
                      else a.cron.state == cron.state && a.cron.archiveTime == cron.archiveTime))
  {
    var a := Handle(cron, t);
    if a.executed {
      var owner := OwnerOf(cron).value;
      var e := Execute(cron, owner, t);
      if NeedsSeed(cron) && RunMessage(t.seed, owner, "", cron.initialPrompt).Ok? {
        RunKeepsSession(t.seed, owner, "", cron.initialPrompt);
        var id := RunMessage(t.seed, owner, "", cron.initialPrompt).value;
        MainWrites(cron, owner, t, id, [RunLog(Seed, owner, "", cron.initialPrompt, Ok(id))]);
      } else if !NeedsSeed(cron) {
        MainWrites(cron, owner, t, cron.contextId, []);
      }
    }
  }

  lemma MainWrites(cron: Record, owner: string, t: Tick, session: string, before: seq<RunLog>)
    requires Uuids(t) && (cron.contextId != "" ==> session == cron.contextId)
    requires |before| <= 1 && forall i :: 0 <= i < |before| ==> before[i].kind.Seed?
    ensures var e := MainRun(cron, owner, t, session, before);
            && (e.update.Some? <==> e.runs[|before|].result.Ok?) && |e.runs| == |before| + 1
            && e.runs[|before|].kind.Main? && (forall i :: 0 <= i < |before| ==> e.runs[i] == before[i])
            && (e.update.Some? ==>
                  var next := Masked(cron, e.update.value, e.paths);
                  && next.(lastRunTime := cron.lastRunTime, contextId := cron.contextId, state := cron.state,
                           archiveTime := cron.archiveTime) == cron
                  && next.lastRunTime == Some(t.now)
                  && next.contextId != ""
                  && (cron.contextId != "" ==> next.contextId == cron.contextId)
                  && (if cron.kind.OneShot? then next.state.Archived? && next.archiveTime == Some(t.now)
                      else next.state == cron.state && next.archiveTime == cron.archiveTime))
  {
    hide RunMessage, Masked, PathsFor;
    var e := MainRun(cron, owner, t, session, before);
    if e.update.Some? {
      RunKeepsSession(t.main, owner, session, cron.prompt);
      PathsWrite(cron, e.update.value, e.update.value.contextId);
    }
  }

  lemma MaskedSnoc(stored: Record, update: Record, paths: seq<MaskPath>, path: MaskPath)
    ensures Masked(stored, update, paths + [path]) == SetField(Masked(stored, update, paths), update, path)
  {
    assert (paths + [path])[..|paths|] == paths;
  }

  /** What the mask of a completed tick lets through. */
  lemma PathsWrite(cron: Record, update: Record, final: string)
    ensures Masked(cron, update, PathsFor(cron, final)) ==
            cron.(lastRunTime := update.lastRunTime,
                  contextId := if cron.contextId != final && final != "" then update.contextId else cron.contextId,
                  state := if cron.kind.OneShot? then update.state else cron.state,
                  archiveTime := if cron.kind.OneShot? then update.archiveTime else cron.archiveTime)
  {
    hide Masked;
    MaskedEmpty(cron, update);
    MaskedSnoc(cron, update, [], LastRunTimePath);
    var run := [LastRunTimePath];
    assert [] + run == run;
    MaskedSnoc(cron, update, run, ContextIdPath);
    var context := if cron.contextId != final && final != "" then run + [ContextIdPath] else run;
    MaskedSnoc(cron, update, context, StatePath);
    MaskedSnoc(cron, update, context + [StatePath], ArchiveTimePath);
    assert context + [StatePath] + [ArchiveTimePath] == context + [StatePath, ArchiveTimePath];
  }

  lemma MaskedEmpty(stored: Record, update: Record)
    ensures Masked(stored, update, []) == stored
  {
  }

  /** With a context id the initial prompt is never run; a tick that does not seed uses that
      id, or none yet; a tick that seeds runs its main prompt in the seeded session. A stored
      new context id is the session that the main run returned. */
  lemma TickSessions(cron: Record, t: Tick)
    requires Uuids(t)
    ensures var a := Handle(cron, t);
            && (cron.contextId != "" ==> !Seeds(a))
            && (!Seeds(a) ==> forall i :: 0 <= i < |a.runs| ==> a.runs[i].sessionId == cron.contextId)
            && (Seeds(a) ==>
                  && NeedsSeed(cron) && a.runs[0].kind.Seed? && a.runs[0].sessionId == ""
                  && |a.runs| == (if a.runs[0].result.Ok? then 2 else 1)
                  && (|a.runs| == 2 ==>
                        a.runs[1].kind.Main? && a.runs[1].sessionId == a.runs[0].result.value != ""))
            && (Completed(a) && t.persists && cron.contextId == "" ==>
                  var main := a.runs[|a.runs| - 1];
                  main.result.Ok? && a.cron.contextId == main.result.value)
            && (Seeds(a) && Completed(a) && t.persists ==> a.cron.contextId == a.runs[0].result.value)
  {
    var a := Handle(cron, t);
    if a.executed {
      var owner := OwnerOf(cron).value;
      if !NeedsSeed(cron) {
        MainStores(cron, owner, t, cron.contextId, []);
      } else {
        assert a.runs[0].kind.Seed?;
        if RunMessage(t.seed, owner, "", cron.initialPrompt).Ok? {
          RunKeepsSession(t.seed, owner, "", cron.initialPrompt);
          var id := RunMessage(t.seed, owner, "", cron.initialPrompt).value;
          MainStores(cron, owner, t, id, [RunLog(Seed, owner, "", cron.initialPrompt, Ok(id))]);
        }
      }
    }
  }

  lemma MainStores(cron: Record, owner: string, t: Tick, session: string, before: seq<RunLog>)
    requires Uuids(t)
    ensures var e := MainRun(cron, owner, t, session, before);
            e.update.Some? ==>
              && e.runs[|before|].result.Ok? && e.runs[|before|].result.value != ""
              && (session != "" ==> e.runs[|before|].result.value == session)
              && (cron.contextId == "" ==>
                    Masked(cron, e.update.value, e.paths).contextId == e.runs[|before|].result.value)
  {
    hide RunMessage, Masked, PathsFor;
    var e := MainRun(cron, owner, t, session, before);
    if e.update.Some? {
      RunKeepsSession(t.main, owner, session, cron.prompt);
      PathsWrite(cron, e.update.value, e.update.value.contextId);
    }
  }

  /** What a failed run is reported as. */
  function FailureOf(log: RunLog): Option<CronFault> {
    match log.result
    case Ok(_) => None
    case Err(fault) => Some(if log.kind.Seed? then InitialRunFailed(fault) else RunFailed(fault))
  }

  /** Asymmetric reporting: in synchronous mode a tick whose main run completed is never
      answered 500, even when storing failed; the observer is told of success exactly when
      both succeeded, and otherwise of the run that failed or of the failed store; its two
      calls pair up. */
  lemma TickReports(cron: Record, t: Tick)
    ensures var a := Handle(cron, t);
            && (Completed(a) ==> a.status == 200)
            && (a.executed ==>
                  && |a.notes| == 2 && a.notes[0].Started? && a.notes[1].Finished?
                  && (a.notes[1].error.None? <==> Completed(a) && t.persists)
                  && (Completed(a) && !t.persists ==> a.notes[1].error == Some(PersistFailed))
                  && (!Completed(a) ==> a.runs != [] && a.notes[1].error == FailureOf(a.runs[|a.runs| - 1]))
                  && (t.sync ==> (a.status == 500 <==> !Completed(a))))
            && (!a.executed ==> a.notes == [] && a.runs == [])
  {
    var a := Handle(cron, t);
    if a.executed {
      var owner := OwnerOf(cron).value;
      if NeedsSeed(cron) {
        var seeded := RunMessage(t.seed, owner, "", cron.initialPrompt);
        if seeded.Ok? {
          MainReports(cron, owner, t, MergeSessionId("", seeded.value),
                      [RunLog(Seed, owner, "", cron.initialPrompt, seeded)]);
        }
      } else {
        MainReports(cron, owner, t, cron.contextId, []);
      }
    }
  }

  lemma MainReports(cron: Record, owner: string, t: Tick, session: string, before: seq<RunLog>)
    requires forall i :: 0 <= i < |before| ==> before[i].kind.Seed?
    ensures var e := MainRun(cron, owner, t, session, before);
            && (e.returned.None? <==> exists i :: 0 <= i < |e.runs| && e.runs[i].kind.Main? && e.runs[i].result.Ok?)
            && |e.runs| == |before| + 1 && e.returned == FailureOf(e.runs[|before|])
  {
    var e := MainRun(cron, owner, t, session, before);
    assert e.runs[|before|].kind.Main?;
    assert forall i :: 0 <= i < |before| ==> e.runs[i] == before[i];
  }

  // ----- histories

  /** Once a context id is stored it never changes, no later tick runs the initial prompt,
      and every later run uses it, whatever fails. */
  lemma {:induction false} ContextIsWriteOnce(cron: Record, ticks: seq<Tick>, m: nat, n: nat)
    requires m <= n <= |ticks| && AllUuids(ticks) && At(cron, ticks, m).contextId != ""
    ensures At(cron, ticks, n).contextId == At(cron, ticks, m).contextId
    ensures n < |ticks| ==>
              && !Seeds(Step(cron, ticks, n))
              && forall i :: 0 <= i < |Step(cron, ticks, n).runs| ==>
                   Step(cron, ticks, n).runs[i].sessionId == At(cron, ticks, m).contextId
    decreases n - m
  {
    hide Handle, Seeds, Completed;
    if m < n {
      ContextIsWriteOnce(cron, ticks, m, n - 1);
      TickWrites(At(cron, ticks, n - 1), ticks[n - 1]);
    }
    if n < |ticks| {
      TickSessions(At(cron, ticks, n), ticks[n]);
    }
  }

  /** Ticks 0..n whose main run completed. */
  function CompletedCount(cron: Record, ticks: seq<Tick>, n: nat): nat
    requires n <= |ticks|
  {
    if n == 0 then 0
    else CompletedCount(cron, ticks, n - 1) + (if Completed(Step(cron, ticks, n - 1)) then 1 else 0)
  }

  /** Those of them whose result could not be stored. */
  function UnstoredCount(cron: Record, ticks: seq<Tick>, n: nat): nat
    requires n <= |ticks|
  {
    if n == 0 then 0
    else
      UnstoredCount(cron, ticks, n - 1) +
      (if Completed(Step(cron, ticks, n - 1)) && !ticks[n - 1].persists then 1 else 0)
  }

  /** A one-shot cron's completed main runs are exactly its failed stores, plus one once it
      is archived. */
  lemma {:induction false} OneShotRunsOnce(cron: Record, ticks: seq<Tick>, n: nat)
    requires n <= |ticks| && AllUuids(ticks) && cron.kind.OneShot? && !cron.state.Archived?
    ensures At(cron, ticks, n).kind.OneShot?
    ensures CompletedCount(cron, ticks, n)
         == UnstoredCount(cron, ticks, n) + (if At(cron, ticks, n).state.Archived? then 1 else 0)
    decreases n
  {
    hide Handle, Completed;
    if n > 0 {
      OneShotRunsOnce(cron, ticks, n - 1);
      TickWrites(At(cron, ticks, n - 1), ticks[n - 1]);
      ArchivedRunsNothing(At(cron, ticks, n - 1), ticks[n - 1]);
    }
  }

  /** An archived cron runs nothing and stays as it is. */
  lemma ArchivedRunsNothing(cron: Record, t: Tick)
    ensures cron.state.Archived? ==> Handle(cron, t).cron == cron && Handle(cron, t).runs == [] && !Completed(Handle(cron, t))
  {
  }

  /** Ticks that reach executeCron on a recurring cron with an initial prompt. */
  predicate Executes(t: Tick) {
    t.body.Some? && TrimSpace(t.body.value) != "" && t.found
  }

  predicate Seedable(cron: Record) {
    && cron.kind.Recurring? && !cron.state.Archived? && TrimSpace(cron.initialPrompt) != ""
    && OwnerOf(cron).Some? && Runnable(cron)
  }

  /** No tick before n both completed its main run and stored the result. */
  predicate NothingStored(cron: Record, ticks: seq<Tick>, n: nat)
    requires n <= |ticks|
  {
    forall i :: 0 <= i < n ==> !(Completed(Step(cron, ticks, i)) && ticks[i].persists)
  }

  lemma StaysSeedable(cron: Record, next: Record)
    requires Seedable(cron) && !next.state.Archived?
    requires next.owner == cron.owner && next.kind == cron.kind && next.prompt == cron.prompt
    requires next.initialPrompt == cron.initialPrompt
    ensures Seedable(next)
  {
    hide TrimSpace;
  }

  /** A tick gives a seedable cron its context id exactly by a completed and stored run. */
  lemma ContextStep(cron: Record, t: Tick)
    requires Uuids(t) && Seedable(cron)
    ensures var a := Handle(cron, t);
            && Seedable(a.cron)
            && (a.cron.contextId == "" <==> cron.contextId == "" && !(Completed(a) && t.persists))
  {
    hide Handle, Completed, TrimSpace, OwnerOf;
    TickWrites(cron, t);
    StaysSeedable(cron, Handle(cron, t).cron);
  }

  lemma {:induction false} ContextStored(cron: Record, ticks: seq<Tick>, n: nat)
    requires n <= |ticks| && AllUuids(ticks) && Seedable(cron) && cron.contextId == ""
    ensures Seedable(At(cron, ticks, n))
    ensures At(cron, ticks, n).contextId == "" <==> NothingStored(cron, ticks, n)
    decreases n
  {
    hide Handle, Completed, Seedable, Uuids;
    if n > 0 {
      ContextStored(cron, ticks, n - 1);
      ContextStep(At(cron, ticks, n - 1), ticks[n - 1]);
    }
  }

  lemma SeedsWhenNeeded(cron: Record, t: Tick)
    requires Seedable(cron) && Executes(t)
    ensures Seeds(Handle(cron, t)) <==> cron.contextId == ""
  {
    if cron.contextId == "" {
      assert Handle(cron, t).runs[0].kind.Seed?;
    }
  }

  /** The initial prompt runs at tick n exactly when no earlier tick completed its main run
      and stored the result: "once" holds from the first stored success on, not before. */
  lemma InitialPromptRunsUntilStored(cron: Record, ticks: seq<Tick>, n: nat)
    requires n < |ticks| && AllUuids(ticks) && Seedable(cron) && cron.contextId == "" && Executes(ticks[n])
    ensures Seeds(Step(cron, ticks, n)) <==> NothingStored(cron, ticks, n)
  {
    hide Handle, Seeds;
    ContextStored(cron, ticks, n);
    SeedsWhenNeeded(At(cron, ticks, n), ticks[n]);
  }

  /** In particular a completed seed whose main run fails is followed by a second seed. */
  lemma InitialPromptCanRunTwice(cron: Record, t: Tick)
    requires Uuids(t) && Seedable(cron) && cron.contextId == "" && Executes(t)
    requires Handle(cron, t).runs[0].result.Ok? && !Completed(Handle(cron, t))
    ensures Seeds(Step(cron, [t, t], 0)) && Seeds(Step(cron, [t, t], 1))
    ensures Step(cron, [t, t], 0).runs[0].result.Ok?
  {
    hide Handle, Seeds, Completed;
    var ticks := [t, t];
    assert At(cron, ticks, 0) == cron;
    InitialPromptRunsUntilStored(cron, ticks, 0);
    InitialPromptRunsUntilStored(cron, ticks, 1);
    assert Step(cron, ticks, 0) == Handle(cron, t);
  }

  function SampleCron(): Record {
    Record("n", "users/u", Recurring, Active, "", "p", "i", None, None)
  }

  /** A tick whose seed run succeeds and whose main run does not find its agent. */
  function FailingTick(): Tick {
    var seed := RunEnv("aaaaaaaa-aaaa-aaaa-aaaa-aaaaaaaaaaaa", true, true, []);
    Tick(Some("n"), true, seed, seed.(loads := false), true, 0, true)
  }

  lemma SampleTrims()
    ensures TrimSpace("n") == "n" && TrimSpace("p") == "p" && TrimSpace("i") == "i" && TrimSpace("u") == "u"
    ensures OwnerOf(SampleCron()) == Some("u")
  {
    var owner := SampleCron().owner;
    assert TrimSpace(owner) == owner;
    assert owner[..6] == "users/" && owner[6..] == "u";
  }

  lemma FailingTickFails()
    ensures var a := Handle(SampleCron(), FailingTick());
            a.runs != [] && a.runs[0].result.Ok? && !Completed(a)
  {
    hide TrimSpace, Pointer.ReplaceAll;
    SampleTrims();
    assert NeedsSeed(SampleCron()) && Runnable(SampleCron());
  }

  /** A real case: the initial prompt of this cron completes at the first of these ticks and
      runs again at the second. */
  lemma InitialPromptRunsTwice()
    ensures var ticks := [FailingTick(), FailingTick()];
            && Seeds(Step(SampleCron(), ticks, 0)) && Step(SampleCron(), ticks, 0).runs[0].result.Ok?
            && Seeds(Step(SampleCron(), ticks, 1))
  {
    hide Handle, Completed, Seeds, Step;
    SampleTrims();
    FailingTickFails();
    assert Uuids(FailingTick());
    InitialPromptCanRunTwice(SampleCron(), FailingTick());
  }

  /** A usable owner is "users/" and a non-blank id, with white space around it ignored. */
  lemma OwnerIsUsersPath(cron: Record) returns (before: string, after: string)
    requires OwnerOf(cron).Some?
    ensures cron.owner == before + ("users/" + OwnerOf(cron).value) + after
    ensures TrimSpace(OwnerOf(cron).value) != ""
    ensures forall i :: 0 <= i < |before| ==> IsSpace(before[i])
    ensures forall i :: 0 <= i < |after| ==> IsSpace(after[i])
  {
    before, after := TrimCutsEnds(cron.owner);
    assert TrimSpace(cron.owner) == "users/" + OwnerOf(cron).value;
  }
}
