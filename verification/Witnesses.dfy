/** Runs of the system that show where a property ends: each is put together step by step from an
    initial cluster, so each situation is reachable. */
module Witnesses {
  import opened Prelude
  import opened Names
  import opened Api
  import opened Actions
  import opened Helpers
  import opened Protocol
  import opened UndoLog
  import opened Invariants
  import opened Theorems
  import opened Drain
  import opened Passes
  import opened Restarts
  import opened Sweepers
  import Steps

  const EmptyCluster := World(map[], map[], map[], map[], map[], 0, 0, map[])

  lemma EmptyIsReachable(env: Env)
    ensures Reachable(env, EmptyCluster)
  {
    assert Legal(env, EmptyCluster, []) && After(EmptyCluster, []) == EmptyCluster;
    assert LeadsTo(env, EmptyCluster, [], EmptyCluster);
  }

  // ---------- a scenario that has just been created, or is in its first run ----------

  /** The scenario is there with its finalizer, and has not run. */
  ghost predicate Fresh(s: string, w: World, spec: Spec) {
    s in w.mjs && w.mjs[s] == NewMJ.(spec := spec, finalizer := true, version := w.mjs[s].version)
  }

  lemma Create(env: Env, s: string, w0: World, spec: Spec) returns (w: World)
    requires Reachable(env, w0) && s !in w0.mjs && ScenarioName(env, s) && s !in env.quiet
    requires env.freshReads ==> ActionsOK(env, s, spec.actions)
    ensures Reachable(env, w) && Fresh(s, w, spec) && w == w0.(mjs := w.mjs, revision := w.revision)
  {
    Steps.CreateStep(env, w0, s, spec);
    Steps.ReachNext(env, w0, UserCreate(s, spec));
    var w1 := Next(w0, UserCreate(s, spec));
    Steps.FinalizerStep(env, w1, s);
    Steps.ReachNext(env, w1, AddFinalizer(s));
    w := Next(w1, AddFinalizer(s));
  }

  lemma Past(env: Env, w: World, s: string)
    requires EnvOK(env) && Reachable(env, w) && s in w.mjs
    ensures env.freshReads ==> PastIsPast(w, s)
  {
    if env.freshReads {
      ReachableInv(env, w);
      PastIsPastAt(env, w, s);
    }
  }

  lemma Start(env: Env, s: string, w0: World, desired: Desired) returns (w: World)
    requires EnvOK(env)
    requires ScenarioName(env, s) && Reachable(env, w0) && s in w0.mjs && w0.mjs[s].finalizer && desired.Desired? &&
             s !in env.quiet
    requires w0.mjs[s].status.currentRun.None? && w0.mjs[s].status.activeActions == []
    requires ValidActions(w0.mjs[s].spec.actions)
    ensures Reachable(env, w)
    ensures w == w0.(mjs := w.mjs, revision := w0.revision + 1,
                 started := w0.started[w0.revision + 1 := StartedRun(s, desired.runID)])
    ensures s in w.mjs
    ensures w.mjs[s] == w0.mjs[s].(version := w0.revision + 1, era := w0.revision + 1,
                        status := w0.mjs[s].status.(currentRun := Some(NewRun(desired, w0.clock)),
                        phase := Activating))
  {
    Past(env, w0, s);
    Steps.StartStep(env, w0, s, desired);
    var l := Steps.StartLabel(w0, s, desired);
    Steps.ReachNext(env, w0, l);
    w := Next(w0, l);
  }

  /** The scenario has been created in w0, and its first run has just started. */
  ghost predicate Begun(s: string, w0: World, w: World, spec: Spec, desired: Desired)
    requires desired.Desired?
  {
    && w == w0.(mjs := w.mjs, revision := w.revision, started := w0.started[w.revision := StartedRun(s, desired.runID)])
    && s in w.mjs
    && w.mjs[s] == NewMJ.(spec := spec, finalizer := true, version := w.revision, era := w.revision,
                   status := EmptyStatus.(currentRun := Some(NewRun(desired, w0.clock)), phase := Activating))
  }

  lemma Begin(env: Env, s: string, w0: World, spec: Spec, desired: Desired) returns (w: World)
    requires EnvOK(env)
    requires Reachable(env, w0) && s !in w0.mjs && ScenarioName(env, s) && s !in env.quiet && desired.Desired?
    requires env.freshReads ==> ActionsOK(env, s, spec.actions)
    requires ValidActions(spec.actions)
    ensures Reachable(env, w) && Begun(s, w0, w, spec, desired)
  {
    var w1 := Create(env, s, w0, spec);
    w := Start(env, s, w1, desired);
  }

  /** The resource of w, but for status, is that of w0, and the objects are untouched. */
  ghost predicate StatusOnly(s: string, w0: World, w: World, st: Status) {
    && s in w0.mjs && s in w.mjs && w == w0.(mjs := w.mjs, revision := w0.revision + 1)
    && w.mjs[s] == w0.mjs[s].(version := w0.revision + 1, status := st)
  }

  lemma Record(env: Env, s: string, w0: World, act: Action, t: Token) returns (w: World)
    requires EnvOK(env)
    requires ScenarioName(env, s) && Reachable(env, w0) && s in w0.mjs && w0.mjs[s].finalizer &&
             w0.mjs[s].status.currentRun.Some?
    requires act.delay.None?
    requires act in w0.mjs[s].spec.actions && ValidActions(w0.mjs[s].spec.actions)
    requires FindActiveAction(w0.mjs[s].status.activeActions, act.name) < 0
    requires Plan(w0, RunContextOf(env, s, w0.mjs[s].status.currentRun), act) == Ok(t)
    ensures Reachable(env, w)
    ensures StatusOnly(s, w0, w, w0.mjs[s].status.(phase := Activating,
                       activeActions := w0.mjs[s].status.activeActions + [Entry(act, t)]))
  {
    Past(env, w0, s);
    Steps.TokenRecorded(env, w0, s, act, t);
    var l := Steps.RecordLabel(env, w0, s, act, t);
    Steps.ReachNext(env, w0, l);
    w := Next(w0, l);
  }

  function Entry(act: Action, t: Token): ActiveAction {
    ActiveAction(act.name, act.atype, Recorded, None, 0, None, t)
  }

  lemma Ensure(env: Env, s: string, w0: World, act: Action, t: Token) returns (w: World)
    requires ScenarioName(env, s) && Reachable(env, w0) && s in w0.mjs && act in w0.mjs[s].spec.actions
    requires w0.mjs[s].status.currentRun.Some? && Lasting(w0.mjs[s].status.currentRun.value)
    requires var i := FindActiveAction(w0.mjs[s].status.activeActions, act.name);
             i >= 0 && w0.mjs[s].status.activeActions[i].token == t
    ensures Reachable(env, w)
    ensures w == EnsureEffect(w0, RunContextOf(env, s, w0.mjs[s].status.currentRun), act, t, true).world
  {
    Steps.EnsureStep(env, w0, s, act, t);
    var l := CallEnsure(s, act, t, RunContextOf(env, s, w0.mjs[s].status.currentRun), true);
    Steps.ReachNext(env, w0, l);
    w := Next(w0, l);
  }

  lemma Succeed(env: Env, s: string, w0: World, n: string) returns (w: World)
    requires Reachable(env, w0) && n in w0.jobs && w0.jobs[n].state == Running
    ensures Reachable(env, w) && w == w0.(jobs := w0.jobs[n := w0.jobs[n].(state := Succeeded)])
  {
    Steps.JobStep(env, w0, n, true);
    Steps.ReachNext(env, w0, JobFinishes(n, true));
    w := Next(w0, JobFinishes(n, true));
  }

  lemma Revert(env: Env, s: string, w0: World, t: Token) returns (w: World)
    requires ScenarioName(env, s) && Reachable(env, w0) && s in w0.mjs && w0.mjs[s].status.activeActions != []
    requires w0.mjs[s].status.activeActions[|w0.mjs[s].status.activeActions| - 1].token == t
    requires MayDrain(w0, s)
    ensures Reachable(env, w)
    ensures w == RevertEffect(w0, RunContextOf(env, s, w0.mjs[s].status.currentRun), t).world
  {
    Steps.RevertStep(env, w0, s, t);
    var l := CallRevert(s, t, RunContextOf(env, s, w0.mjs[s].status.currentRun));
    Steps.ReachNext(env, w0, l);
    w := Next(w0, l);
  }

  /** Drops the only token. */
  lemma DropOnly(env: Env, s: string, w0: World) returns (w: World)
    requires ScenarioName(env, s) && Reachable(env, w0) && s in w0.mjs && |w0.mjs[s].status.activeActions| == 1
    requires Undone(w0, s, w0.mjs[s].status.activeActions[0].token)
    requires MayDrain(w0, s)
    ensures Reachable(env, w) && StatusOnly(s, w0, w, w0.mjs[s].status.(activeActions := []))
  {
    Steps.TokenDropped(env, w0, s);
    var l := Steps.DropLabel(w0, s);
    Steps.ReachNext(env, w0, l);
    w := Next(w0, l);
  }

  lemma Finish(env: Env, s: string, w0: World) returns (w: World)
    requires EnvOK(env)
    requires ScenarioName(env, s) && Reachable(env, w0) && s in w0.mjs && w0.mjs[s].status.currentRun.Some? &&
             s !in env.quiet
    requires w0.mjs[s].status.activeActions == []
    requires MayDrain(w0, s)
    ensures Reachable(env, w) && s in w.mjs && w == w0.(mjs := w.mjs, revision := w0.revision + 1)
    ensures var entry := Steps.EntryNow(w0, s);
            w.mjs[s] == w0.mjs[s].(version := w0.revision + 1, status := FinishedStatus(w0.mjs[s].status, entry),
            audit := w0.mjs[s].audit + [entry])
  {
    Past(env, w0, s);
    Steps.FinishStep(env, w0, s);
    var l := Steps.FinishLabel(w0, s);
    Steps.ReachNext(env, w0, l);
    w := Next(w0, l);
  }

  lemma Toggle(env: Env, s: string, w0: World, enabled: bool, trigger: Option<TriggerSpec>, duration: Option<Duration>)
    returns (w: World)
    requires ScenarioName(env, s) && Reachable(env, w0) && s in w0.mjs && ScenarioName(env, s) && s !in env.quiet
    ensures Reachable(env, w) && s in w.mjs && w == w0.(mjs := w.mjs, revision := w0.revision + 1)
    ensures w.mjs[s] == w0.mjs[s].(version := w0.revision + 1,
                        spec := Spec(enabled, trigger, duration, w0.mjs[s].spec.actions))
  {
    Steps.ToggleStep(env, w0, s, enabled, trigger, duration);
    Steps.ReachNext(env, w0, UserToggle(s, enabled, trigger, duration));
    w := Next(w0, UserToggle(s, enabled, trigger, duration));
  }

  lemma Wait(env: Env, s: string, w0: World, until: Time) returns (w: World)
    requires Reachable(env, w0) && w0.clock <= until
    ensures Reachable(env, w) && w == w0.(clock := until)
  {
    Steps.TickStep(env, w0, until);
    Steps.ReachNext(env, w0, Tick(until));
    w := Next(w0, Tick(until));
  }

  // ---------- run IDs that come back ----------

  function SqlAction(base: string): Action {
    Action("sql", DBExecType, None, None, None, None, None, Some(DBExecAction(base, ["a"], ["b"])))
  }

  const ManualTrigger := Some(TriggerSpec("m1", None))

  function ManualSpec(base: string): Spec { Spec(false, ManualTrigger, None, [SqlAction(base)]) }

  function EnsureName(env: Env, base: string): string { ExecEnsureName(base, env.digest("m1")) }

  function RevertName(env: Env, base: string): string { ExecRevertName(base, env.digest("m1")) }

  function SqlToken(env: Env, base: string): Token { DBExecToken(EnsureName(env, base), RevertName(env, base), ["b"]) }

  lemma NamesDiffer(env: Env, base: string)
    requires EnvOK(env)
    ensures EnsureName(env, base) != RevertName(env, base)
  {
    ExecPhasesNeverCollide(base, env.digest("m1"), base, env.digest("m1"));
  }

  /** A succeeded Job of the first manual run. */
  ghost predicate Leftover(s: string, w: World, n: string, phase: ExecPhase) {
    && n in w.jobs && w.jobs[n].scenario == Some(s) && w.jobs[n].state == Succeeded
    && w.jobs[n].origin.Exec? && w.jobs[n].origin.runID == "m1" && w.jobs[n].origin.phase == phase
    && w.jobs[n].origin.era <= w.revision
    && w.jobs[n].origin.era in w.started && w.started[w.jobs[n].origin.era] == StartedRun(s, "m1")
  }

  ghost predicate Leftovers(s: string, base: string, env: Env, w: World) {
    Leftover(s, w, EnsureName(env, base), EnsurePhase) && Leftover(s, w, RevertName(env, base), RevertPhase)
  }

  /** A first run of ID m1 that has recorded the token of its exec action. */
  ghost predicate SqlRecorded(s: string, base: string, env: Env, w: World, spec: Spec, duration: Duration) {
    && s in w.mjs && w.mjs[s].spec == spec && w.mjs[s].finalizer && !w.mjs[s].deleting
    && w.mjs[s].status.currentRun == Some(NewRun(Desired(Manual, "m1", duration), 0)) && w.mjs[s].audit == []
    && w.mjs[s].status.activeActions == [Entry(SqlAction(base), SqlToken(env, base))]
    && w.clock == 0 && w.jobs == map[]
    && w.mjs[s].era <= w.revision && w.mjs[s].era in w.started
    && w.started[w.mjs[s].era] == StartedRun(s, "m1")
  }

  lemma SqlPlan(env: Env, s: string, base: string, w: World, run: CurrentRun)
    requires run.id == "m1"
    requires EnsureName(env, base) in w.jobs ==> w.jobs[EnsureName(env, base)].scenario == Some(s)
    requires RevertName(env, base) in w.jobs ==> w.jobs[RevertName(env, base)].scenario == Some(s)
    ensures Plan(w, RunContextOf(env, s, Some(run)), SqlAction(base)) == Ok(SqlToken(env, base))
  {
  }

  /** Records the token of the exec action in a run of ID m1. */
  lemma AddSql(env: Env, s: string, base: string, w0: World) returns (w: World)
    requires EnvOK(env)
    requires ScenarioName(env, s) && Reachable(env, w0) && s in w0.mjs && w0.mjs[s].finalizer
    requires w0.mjs[s].status.currentRun.Some? && w0.mjs[s].status.currentRun.value.id == "m1"
    requires SqlAction(base) in w0.mjs[s].spec.actions && ValidActions(w0.mjs[s].spec.actions)
    requires FindActiveAction(w0.mjs[s].status.activeActions, "sql") < 0
    requires EnsureName(env, base) in w0.jobs ==> w0.jobs[EnsureName(env, base)].scenario == Some(s)
    requires RevertName(env, base) in w0.jobs ==> w0.jobs[RevertName(env, base)].scenario == Some(s)
    ensures Reachable(env, w)
    ensures var list := w0.mjs[s].status.activeActions + [Entry(SqlAction(base), SqlToken(env, base))];
            StatusOnly(s, w0, w, w0.mjs[s].status.(phase := Activating, activeActions := list))
  {
    SqlPlan(env, s, base, w0, w0.mjs[s].status.currentRun.value);
    w := Record(env, s, w0, SqlAction(base), SqlToken(env, base));
  }

  lemma SqlAlone(base: string)
    ensures ValidActions([SqlAction(base)]) && SqlAction(base) in [SqlAction(base)]
  {
  }

  lemma RecordSql(env: Env, s: string, base: string, duration: Duration) returns (w: World)
    requires EnvOK(env) && env.freshReads && ScenarioName(env, s) && s !in env.quiet
    ensures Reachable(env, w) && SqlRecorded(s, base, env, w, ManualSpec(base), duration)
  {
    EmptyIsReachable(env);
    SqlAlone(base);
    var w1 := Begin(env, s, EmptyCluster, ManualSpec(base), Desired(Manual, "m1", duration));
    w := AddSql(env, s, base, w1);
  }

  lemma EnsureSql(env: Env, s: string, base: string, w0: World) returns (w: World)
    requires ScenarioName(env, s) && Reachable(env, w0) && SqlRecorded(s, base, env, w0, ManualSpec(base), 0)
    ensures Reachable(env, w)
    ensures w == PutJob(w0, EnsureName(env, base), Job(Some(s), Exec("m1", w0.mjs[s].era, EnsurePhase), Running, false,
                                                       0, EXEC_JOB_DEADLINE / SECOND))
  {
    SqlEffect(env, s, base, w0);
    w := Ensure(env, s, w0, SqlAction(base), SqlToken(env, base));
  }

  lemma SqlEffect(env: Env, s: string, base: string, w: World)
    requires SqlRecorded(s, base, env, w, ManualSpec(base), 0)
    ensures EnsureEffect(w, RunContextOf(env, s, w.mjs[s].status.currentRun), SqlAction(base), SqlToken(env, base),
                         true).world
         == PutJob(w, EnsureName(env, base), Job(Some(s), Exec("m1", w.mjs[s].era, EnsurePhase), Running, false,
                                                 0, EXEC_JOB_DEADLINE / SECOND))
  {
  }

  /** The exec Job of the first run has succeeded. */
  lemma ApplySql(env: Env, s: string, base: string, w0: World) returns (w: World)
    requires ScenarioName(env, s) && EnvOK(env) && Reachable(env, w0) &&
             SqlRecorded(s, base, env, w0, ManualSpec(base), 0)
    ensures Reachable(env, w) && w == w0.(jobs := w.jobs) && w.jobs.Keys == {EnsureName(env, base)}
    ensures Leftover(s, w, EnsureName(env, base), EnsurePhase)
  {
    var w1 := EnsureSql(env, s, base, w0);
    w := Succeed(env, s, w1, EnsureName(env, base));
    assert w0.mjs[s].era in w.started;
  }

  /** The first manual run: its exec action is applied. */
  lemma FirstRunApplied(env: Env, s: string, base: string) returns (w: World)
    requires EnvOK(env) && env.freshReads && ScenarioName(env, s) && s !in env.quiet
    ensures Reachable(env, w) && SqlRecorded(s, base, env, w.(jobs := map[]), ManualSpec(base), 0)
    ensures w.jobs.Keys == {EnsureName(env, base)} && Leftover(s, w, EnsureName(env, base), EnsurePhase)
  {
    var w1 := RecordSql(env, s, base, 0);
    w := ApplySql(env, s, base, w1);
    assert w.(jobs := map[]) == w1;
  }

  /** The first manual run is over, and its Jobs are still there. */
  lemma FirstRunOver(env: Env, s: string, base: string) returns (w: World)
    requires EnvOK(env) && env.freshReads && ScenarioName(env, s) && s !in env.quiet
    ensures s in w.mjs && !w.mjs[s].deleting
    ensures Reachable(env, w) && s in w.mjs && w.mjs[s].spec == ManualSpec(base) && w.mjs[s].finalizer
    ensures w.mjs[s].status.currentRun.None? && w.mjs[s].status.activeActions == []
    ensures |w.mjs[s].audit| == 1 && w.mjs[s].audit[0].id == "m1" && w.mjs[s].status.lastCompletedRunID == "m1"
    ensures w.clock == 0 && Leftovers(s, base, env, w)
  {
    SqlAlone(base);
    var w1 := FirstRunUndone(env, s, base);
    var w2 := DropOnly(env, s, w1);
    w := Finish(env, s, w2);
  }

  /** The first manual run: its exec action is undone. */
  lemma FirstRunUndone(env: Env, s: string, base: string) returns (w: World)
    requires EnvOK(env) && env.freshReads && ScenarioName(env, s) && s !in env.quiet
    ensures Reachable(env, w) && SqlRecorded(s, base, env, w.(jobs := map[]), ManualSpec(base), 0)
    ensures Leftovers(s, base, env, w)
  {
    NamesDiffer(env, base);
    SqlAlone(base);
    var w1 := FirstRunApplied(env, s, base);
    var w2 := Revert(env, s, w1, SqlToken(env, base));
    w := Succeed(env, s, w2, RevertName(env, base));
    assert w.(jobs := map[]) == w1.(jobs := map[]);
  }

  /** The enabled run e1 after it is overdue, with the trigger of m1 still in the spec. */
  lemma EnabledRunOverdue(env: Env, s: string, base: string) returns (w: World)
    requires EnvOK(env) && env.freshReads && ScenarioName(env, s) && s !in env.quiet
    ensures s in w.mjs && !w.mjs[s].deleting
    ensures Reachable(env, w) && Overdue(w, s) &&
            w.mjs[s].spec == Spec(true, ManualTrigger, Some(MINUTE), [SqlAction(base)])
    ensures w.mjs[s].status.currentRun.value.id == "e1" && w.mjs[s].status.activeActions == []
    ensures |w.mjs[s].audit| == 1 && w.mjs[s].audit[0].id == "m1"
    ensures w.clock == 2 * MINUTE && Leftovers(s, base, env, w)
  {
    var w1 := FirstRunOver(env, s, base);
    SqlAlone(base);
    var w2 := Toggle(env, s, w1, true, ManualTrigger, Some(MINUTE));
    var w3 := Start(env, s, w2, Desired(Enabled, "e1", MINUTE));
    w := Wait(env, s, w3, 2 * MINUTE);
  }

  /** An old trigger runs again: once e1 is overdue, steps of the operator alone, with the scenario
      left in peace by its users, run m1 a second time. */
  lemma OldTriggerRunsAgain(env: Env, s: string, base: string) returns (w: World, ls: seq<Label>)
    requires EnvOK(env) && env.freshReads && ScenarioName(env, s) && s !in env.quiet
    ensures Reachable(env, w) && Overdue(w, s) && w.mjs[s].audit != [] && w.mjs[s].audit[0].id == "m1"
    ensures Legal(env.(quiet := {s}), w, ls) && StartsOf(ls, s) == [Desired(Manual, "m1", MINUTE)]
  {
    w := EnabledRunOverdue(env, s, base);
    SqlAlone(base);
    var quiet := env.(quiet := {s});
    assert Legal(quiet, w, []) && After(w, []) == w;
    Past(env, w, s);
    ls := RestartFrom(quiet, w, s, []);
  }

  /** m1 runs again. */
  lemma SecondRun(env: Env, s: string, base: string) returns (w: World)
    requires EnvOK(env) && env.freshReads && ScenarioName(env, s) && s !in env.quiet
    ensures Reachable(env, w) && s in w.mjs && Leftovers(s, base, env, w) && w.clock == 2 * MINUTE
    ensures w.mjs[s].status.currentRun == Some(NewRun(Desired(Manual, "m1", MINUTE), 2 * MINUTE))
    ensures w.mjs[s].status.activeActions == [] && w.mjs[s].spec.actions == [SqlAction(base)] && w.mjs[s].finalizer
    ensures w.jobs[EnsureName(env, base)].origin.era < w.mjs[s].era &&
            w.jobs[RevertName(env, base)].origin.era < w.mjs[s].era
  {
    var w0 := EnabledRunOverdue(env, s, base);
    SqlAlone(base);
    Steps.DisableStep(env, w0, s);
    Steps.ReachNext(env, w0, DisableExpired(s));
    var w1 := Next(w0, DisableExpired(s));
    var w2 := Finish(env, s, w1);
    w := Start(env, s, w2, Desired(Manual, "m1", MINUTE));
  }

  /** Its exec action is recorded, and nothing of it was applied. */
  lemma SecondRunRecorded(env: Env, s: string, base: string) returns (w: World)
    requires EnvOK(env) && env.freshReads && ScenarioName(env, s) && s !in env.quiet
    ensures Reachable(env, w) && s in w.mjs && Leftovers(s, base, env, w)
    ensures w.mjs[s].status.currentRun == Some(NewRun(Desired(Manual, "m1", MINUTE), 2 * MINUTE))
    ensures w.mjs[s].status.activeActions == [Entry(SqlAction(base), SqlToken(env, base))]
    ensures w.jobs[EnsureName(env, base)].origin.era < w.mjs[s].era &&
            w.jobs[RevertName(env, base)].origin.era < w.mjs[s].era
  {
    var w0 := SecondRun(env, s, base);
    SqlAlone(base);
    w := AddSql(env, s, base, w0);
  }

  /** A Job of the earlier run misleads: the second m1 reports its statements as executed, and as
      undone, on the strength of Jobs two minutes old. Nothing of it ran. */
  lemma ReusedIDAdoptsOldJobs(env: Env, s: string, base: string) returns (w: World)
    requires EnvOK(env) && env.freshReads && ScenarioName(env, s) && s !in env.quiet && DigestTells(env, "m1")
    ensures Reachable(env, w) && ExecToken(env, w, s, SqlToken(env, base)) && !FreshID(w, s)
    ensures EnsureOutcome(env, w, s, SqlToken(env, base), SqlAction(base)) == Done
    ensures RevertOutcome(env, w, s, SqlToken(env, base)) == Done
    ensures Misleads(w, s, EnsureName(env, base), EnsurePhase) && Misleads(w, s, RevertName(env, base), RevertPhase)
  {
    w := SecondRunRecorded(env, s, base);
    assert TokensOf(w.mjs[s].status.activeActions)[0] == SqlToken(env, base);
  }

  // ---------- a Workload Job under the name of an exec Job ----------

  function Load(env: Env, base: string): Action {
    Action("load", WorkloadType, None, Some(WorkloadAction(EnsureName(env, base), None)), None, None, None, None)
  }

  function LoadSpec(env: Env, base: string): Spec {
    Spec(false, ManualTrigger, None, [Load(env, base), SqlAction(base)])
  }

  /** A first run that has recorded the token of its Workload action. */
  ghost predicate LoadRecorded(s: string, base: string, env: Env, w: World) {
    && s in w.mjs && w.mjs[s].spec == LoadSpec(env, base) && w.mjs[s].finalizer
    && w.mjs[s].status.currentRun == Some(NewRun(Desired(Manual, "m1", 0), 0))
    && w.mjs[s].status.activeActions == [Entry(Load(env, base), WorkloadToken(EnsureName(env, base)))]
    && w.started == map[w.mjs[s].era := StartedRun(s, "m1")]
  }

  lemma RecordLoad(env: Env, s: string, base: string) returns (w: World)
    requires EnvOK(env) && env.freshReads && ScenarioName(env, s) && s !in env.quiet
    ensures Reachable(env, w) && LoadRecorded(s, base, env, w) && w.jobs == map[]
  {
    EmptyIsReachable(env);
    LoadAndSql(env, base);
    var w1 := Begin(env, s, EmptyCluster, LoadSpec(env, base), Desired(Manual, "m1", 0));
    assert LoadSpec(env, base).actions[0] == Load(env, base);
    w := Record(env, s, w1, Load(env, base), WorkloadToken(EnsureName(env, base)));
  }

  lemma EnsureLoad(env: Env, s: string, base: string, w0: World) returns (w: World)
    requires ScenarioName(env, s) && Reachable(env, w0) && LoadRecorded(s, base, env, w0) && w0.jobs == map[]
    ensures Reachable(env, w) && w == w0.(jobs := w.jobs) && w.jobs.Keys == {EnsureName(env, base)}
    ensures var job := w.jobs[EnsureName(env, base)];
            job.scenario == Some(s) && job.state == Running && job.origin.Load?
  {
    assert LoadSpec(env, base).actions[0] == Load(env, base);
    w := Ensure(env, s, w0, Load(env, base), WorkloadToken(EnsureName(env, base)));
  }

  lemma LoadAndSql(env: Env, base: string)
    ensures ValidActions(LoadSpec(env, base).actions) && SqlAction(base) in LoadSpec(env, base).actions
  {
    assert LoadSpec(env, base).actions[1] == SqlAction(base);
  }

  /** The Workload Job of a first run has succeeded under that name. */
  lemma LoadSucceeded(env: Env, s: string, base: string) returns (w: World)
    requires EnvOK(env) && env.freshReads && ScenarioName(env, s) && s !in env.quiet
    ensures Reachable(env, w) && LoadRecorded(s, base, env, w) && w.jobs.Keys == {EnsureName(env, base)}
    ensures var job := w.jobs[EnsureName(env, base)];
            job.scenario == Some(s) && job.state == Succeeded && job.origin.Load?
  {
    var w1 := RecordLoad(env, s, base);
    var w2 := EnsureLoad(env, s, base, w1);
    w := Succeed(env, s, w2, EnsureName(env, base));
  }

  /** A Workload Job misleads: it bears the name that the exec Job of this run would have. */
  lemma WorkloadJobIsAdopted(env: Env, s: string, base: string) returns (w: World)
    requires EnvOK(env) && env.freshReads && ScenarioName(env, s) && s !in env.quiet && DigestTells(env, "m1")
    ensures Reachable(env, w) && ExecToken(env, w, s, SqlToken(env, base)) && FreshID(w, s)
    ensures EnsureOutcome(env, w, s, SqlToken(env, base), SqlAction(base)) == Done
    ensures Misleads(w, s, EnsureName(env, base), EnsurePhase)
  {
    var w0 := LoadSucceeded(env, s, base);
    NamesDiffer(env, base);
    LoadAndSql(env, base);
    w := AddSql(env, s, base, w0);
    var list := w.mjs[s].status.activeActions;
    assert TokensOf(list)[0] == WorkloadToken(EnsureName(env, base)) && TokensOf(list)[1] == SqlToken(env, base);
  }

  // ---------- a drain that an invalid spec blocks ----------

  /** A user edits the spec of a run in flight so that it does not validate, and the run expires: its
      token stays, since a pass on an invalid spec only says so. */
  lemma InvalidSpecBlocksDrain(env: Env, s: string, base: string) returns (w: World)
    requires EnvOK(env) && env.freshReads && ScenarioName(env, s) && s !in env.quiet
    ensures Reachable(env, w) && s in w.mjs && !w.mjs[s].deleting && w.mjs[s].status.currentRun.Some?
    ensures Expired(w.mjs[s].status.currentRun.value, w.clock) && Tokens(w, s) != []
    ensures Unblocked(w, s) && !ValidActions(w.mjs[s].spec.actions)
  {
    var w0 := RecordSql(env, s, base, MINUTE);
    var w1 := EditTwice(env, s, base, w0);
    w := Wait(env, s, w1, 2 * MINUTE);
    assert w.mjs[s].spec.actions[0].name == w.mjs[s].spec.actions[1].name;
    SqlUnblocked(env, s, base, w);
  }

  lemma SqlUnblocked(env: Env, s: string, base: string, w: World)
    requires w.jobs == map[]
    ensures Unblocked(w, s)
  {
  }

  /** The user repeats an action: nothing forbids it but the validation of the next pass. */
  lemma EditTwice(env: Env, s: string, base: string, w0: World) returns (w: World)
    requires ScenarioName(env, s) && Reachable(env, w0) && SqlRecorded(s, base, env, w0, ManualSpec(base), MINUTE) &&
             s !in env.quiet
    ensures Reachable(env, w) && w == w0.(mjs := w.mjs, revision := w.revision) && s in w.mjs
    ensures w.mjs[s] == w0.mjs[s].(version := w.mjs[s].version,
                        spec := w0.mjs[s].spec.(actions := [SqlAction(base), SqlAction(base)]))
  {
    var twice := [SqlAction(base), SqlAction(base)];
    Steps.EditStep(env, w0, s, twice);
    Steps.ReachNext(env, w0, UserEdit(s, twice));
    w := Next(w0, UserEdit(s, twice));
  }

  // ---------- a stale copy that panics ----------

  function PlainSql(base: string): Action {
    Action("sql", DBExecType, None, None, None, None, None, Some(DBExecAction(base, ["a"], [])))
  }

  /** A copy of the resource that shows a token, and a later point of the same run where the status
      has none: a drain that starts from the copy refreshes it and finds nothing. */
  lemma StaleCopyIsReachable(env: Env, s: string, base: string) returns (copy: MaintenanceJob, w: World)
    requires EnvOK(env) && ScenarioName(env, s) && s !in env.quiet
    ensures Reachable(env, w) && s in w.mjs && copy.version < w.mjs[s].version && copy.era == w.mjs[s].era
    ensures w.mjs[s].finalizer && StaleTokens(copy.status, w.mjs[s].status)
  {
    var w1 := RecordPlain(env, s, base);
    copy := w1.mjs[s];
    w := DropOnly(env, s, w1);
  }

  lemma PlainAlone(base: string)
    ensures ValidActions([PlainSql(base)]) && PlainSql(base) in [PlainSql(base)]
  {
  }

  lemma RecordPlain(env: Env, s: string, base: string) returns (w: World)
    requires EnvOK(env) && ScenarioName(env, s) && s !in env.quiet
    ensures Reachable(env, w) && s in w.mjs && w.mjs[s].finalizer && w.mjs[s].version <= w.revision
    ensures w.mjs[s].status.phase == Activating && |w.mjs[s].status.activeActions| == 1
    ensures ValidActions(w.mjs[s].spec.actions)
    ensures w.mjs[s].status.activeActions[0].token.DBExecToken?
  {
    var t := DBExecToken(EnsureName(env, base), RevertName(env, base), []);
    EmptyIsReachable(env);
    PlainAlone(base);
    var w1 := Begin(env, s, EmptyCluster, ManualSpec(base).(actions := [PlainSql(base)]), Desired(Manual, "m1", 0));
    w := Record(env, s, w1, PlainSql(base), t);
  }

  // ---------- a copy that is too short ----------

  /** A copy of the resource with two actions, and a later point of the same run where a user has taken
      the second away: an activation that starts from the copy records a token for the first action,
      which refreshes the copy, and has no second one to look at. */
  lemma ShortCopyIsReachable(env: Env, s: string, base: string) returns (copy: MaintenanceJob, w: World)
    requires EnvOK(env) && ScenarioName(env, s) && s !in env.quiet
    ensures Reachable(env, w) && s in w.mjs && copy.version < w.mjs[s].version && copy.era == w.mjs[s].era
    ensures w.mjs[s].finalizer && w.mjs[s].status == copy.status && copy.status.currentRun.Some?
    ensures ValidActions(copy.spec.actions) && |w.mjs[s].spec.actions| == 1 < |copy.spec.actions|
    ensures FindActiveAction(copy.status.activeActions, copy.spec.actions[0].name) < 0
    ensures Plan(w, RunContextOf(env, s, copy.status.currentRun), copy.spec.actions[0]).Ok?
  {
    EmptyIsReachable(env);
    LoadAndSql(env, base);
    var w1 := Begin(env, s, EmptyCluster, LoadSpec(env, base), Desired(Manual, "m1", 0));
    copy := w1.mjs[s];
    w := TakeAction(env, s, w1, [Load(env, base)]);
  }

  lemma TakeAction(env: Env, s: string, w0: World, actions: seq<Action>) returns (w: World)
    requires ScenarioName(env, s) && Reachable(env, w0) && s in w0.mjs && s !in env.quiet
    requires w0.mjs[s].status.activeActions == [] && ActionsOK(env, s, actions)
    ensures Reachable(env, w) && w == w0.(mjs := w.mjs, revision := w0.revision + 1) && s in w.mjs
    ensures w.mjs[s] == w0.mjs[s].(version := w0.revision + 1, spec := w0.mjs[s].spec.(actions := actions))
  {
    Steps.EditStep(env, w0, s, actions);
    Steps.ReachNext(env, w0, UserEdit(s, actions));
    w := Next(w0, UserEdit(s, actions));
  }

  // ---------- a force-released target ----------

  const Rollout := Action("bad", DeployImageType, None, None, None,
                          Some(DeployImageAction("cart", "app", "v2", "")), None, None)

  const RolloutSpec := Spec(true, None, None, [Rollout])

  const CartDeployment := Deployment(Some(1), [Container("app", "v1")], "", map[], None)

  const CartToken := DeployImageToken("cart", "app", "v1", "v2")

  const CartCluster := EmptyCluster.(deployments := map["cart" := CartDeployment])

  /** The cart is a known target, under fresh reads one of the scenario. */
  ghost predicate CartEnv(s: string, env: Env) {
    && EnvOK(env) && ScenarioName(env, s) && s !in env.quiet
    && "cart" in env.original && env.original["cart"] == CartDeployment
    && (env.freshReads ==> OwnTarget(env, s, "cart"))
  }

  lemma CartIsReachable(env: Env, s: string)
    requires CartEnv(s, env)
    ensures Reachable(env, CartCluster)
  {
    assert Legal(env, CartCluster, []) && After(CartCluster, []) == CartCluster;
    assert LeadsTo(env, CartCluster, [], CartCluster);
  }

  ghost predicate CartIsBad(s: string, w: World) {
    && "cart" in w.deployments && w.deployments["cart"].scenario == Some(s)
    && w.deployments["cart"].containers == [Container("app", "v2")] && HeldFor(w.deployments["cart"], s)
  }

  lemma RolloutAlone()
    ensures ValidActions(RolloutSpec.actions) && Rollout in RolloutSpec.actions
  {
    assert RolloutSpec.actions[0] == Rollout;
  }

  /** The bad image is live. */
  lemma RolledOut(env: Env, s: string) returns (w: World)
    requires CartEnv(s, env)
    ensures Reachable(env, w) && s in w.mjs && w.mjs[s].status.activeActions == [Entry(Rollout, CartToken)]
    ensures w.mjs[s].finalizer && !w.mjs[s].deleting && CartIsBad(s, w) && w.mjs[s].spec == RolloutSpec
    ensures w.mjs[s].status.currentRun.Some?
  {
    CartIsReachable(env, s);
    RolloutAlone();
    var w1 := Begin(env, s, CartCluster, RolloutSpec, Desired(Enabled, "e1", 0));
    var w2 := RecordRollout(env, s, w1);
    w := EnsureRollout(env, s, w2);
  }

  lemma EnsureRollout(env: Env, s: string, w0: World) returns (w: World)
    requires ScenarioName(env, s) && Reachable(env, w0) && s in w0.mjs && w0.mjs[s].spec == RolloutSpec &&
             w0.deployments == CartCluster.deployments
    requires w0.mjs[s].status.activeActions == [Entry(Rollout, CartToken)]
    requires w0.mjs[s].status.currentRun.Some? && Lasting(w0.mjs[s].status.currentRun.value)
    ensures Reachable(env, w) && w == w0.(deployments := w.deployments) && CartIsBad(s, w)
  {
    assert ContainerIndex(CartDeployment.containers, "app") == 0;
    var rc := RunContextOf(env, s, w0.mjs[s].status.currentRun);
    assert s + "/" <= Stamp(rc);
    w := Ensure(env, s, w0, Rollout, CartToken);
  }

  lemma RecordRollout(env: Env, s: string, w0: World) returns (w: World)
    requires EnvOK(env)
    requires ScenarioName(env, s) && Reachable(env, w0) &&
             Begun(s, CartCluster, w0, RolloutSpec, Desired(Enabled, "e1", 0))
    ensures Reachable(env, w)
    ensures StatusOnly(s, w0, w, w0.mjs[s].status.(phase := Activating, activeActions := [Entry(Rollout, CartToken)]))
  {
    assert ContainerIndex(CartDeployment.containers, "app") == 0;
    assert w0.mjs[s].status.activeActions + [Entry(Rollout, CartToken)] == [Entry(Rollout, CartToken)];
    w := Record(env, s, w0, Rollout, CartToken);
  }

  /** The user forces the release and deletes the scenario. */
  lemma ForceDeleted(env: Env, s: string) returns (w: World)
    requires CartEnv(s, env) && !env.freshReads
    ensures Reachable(env, w) && s in w.mjs && w.mjs[s].status.activeActions == [Entry(Rollout, CartToken)]
    ensures w.mjs[s].finalizer && w.mjs[s].deleting && w.mjs[s].forceRelease && CartIsBad(s, w)
  {
    var w0 := RolledOut(env, s);
    Steps.ReachNext(env, w0, UserForceRelease(s));
    var w1 := Next(w0, UserForceRelease(s));
    SubjectShape(w0, UserForceRelease(s));
    Steps.ReachNext(env, w1, UserDelete(s));
    w := Next(w1, UserDelete(s));
    SubjectShape(w1, UserDelete(s));
  }

  /** The tokens are leaked. */
  lemma CartLeaked(env: Env, s: string) returns (w: World)
    requires CartEnv(s, env) && !env.freshReads
    ensures Reachable(env, w) && s in w.mjs && w.mjs[s].status.activeActions == [Entry(Rollout, CartToken)]
    ensures w.mjs[s].finalizer && w.mjs[s].deleting && w.mjs[s].forceRelease && CartIsBad(s, w)
    ensures var key := LeakKey(s, "bad", "t"); key in w.leaked && w.leaked[key] == CartToken
  {
    var w0 := ForceDeleted(env, s);
    var key := LeakKey(s, "bad", "t");
    assert s + "." <= key;
    Steps.LeakStep(env, w0, s, key, CartToken);
    Steps.ReachNext(env, w0, Leak(s, map[key := CartToken]));
    w := Next(w0, Leak(s, map[key := CartToken]));
  }

  /** After a force-release the target itself, bad image and all, may be swept: the Deployment goes. */
  lemma ForceReleaseLosesTarget(env: Env, s: string) returns (w: World)
    requires CartEnv(s, env) && !env.freshReads
    ensures Reachable(env, w) && s !in w.mjs && CartIsBad(s, w) && Allowed(env, w, SweepDeployment("cart"))
    ensures var key := LeakKey(s, "bad", "t"); key in w.leaked && w.leaked[key] == CartToken
  {
    var w0 := CartLeaked(env, s);
    assert Leaked(w0, s, w0.mjs[s].status.activeActions, "t");
    var l := DropFinalizer(s, "t");
    Steps.ReachNext(env, w0, l);
    assert Next(w0, l) == DropMJ(w0, s);
    w := DropMJ(w0, s);
  }

  // ---------- a target that the sweep takes for an orphan ----------

  /** The cart is as it was. */
  ghost predicate CartIsBack(w: World) {
    "cart" in w.deployments && w.deployments["cart"].containers == [Container("app", "v1")] &&
    w.deployments["cart"].heldBy == "" && "app" !in w.deployments["cart"].knownGood
  }

  lemma CartRevertEffect(s: string, w: World, rc: RunContext)
    requires CartIsBad(s, w) && rc.scenario == s
    ensures var w' := RevertEffect(w, rc, CartToken).world; w' == w.(deployments := w'.deployments) && CartIsBack(w')
  {
    assert ContainerIndex(w.deployments["cart"].containers, "app") == 0;
  }

  /** The target is restored. */
  lemma CartReverted(env: Env, s: string, w0: World) returns (w: World)
    requires CartEnv(s, env) && s in w0.mjs && w0.mjs[s].status.activeActions == [Entry(Rollout, CartToken)]
    requires MayDrain(w0, s) && CartIsBad(s, w0)
    ensures Follows(env, w0, w) && w == w0.(deployments := w.deployments) && CartIsBack(w)
  {
    FollowsItself(env, w0);
    var rc := RunContextOf(env, s, w0.mjs[s].status.currentRun);
    CartRevertEffect(s, w0, rc);
    Steps.RevertStep(env, w0, s, CartToken);
    FollowsNext(env, w0, w0, CallRevert(s, CartToken, rc));
    w := RevertEffect(w0, rc, CartToken).world;
  }

  lemma CartDropped(env: Env, s: string, w0: World, w1: World) returns (w: World)
    requires Follows(env, w0, w1) && s in w1.mjs && w1.mjs[s].status.activeActions == [Entry(Rollout, CartToken)]
    requires MayDrain(w1, s) && CartIsBack(w1)
    ensures Follows(env, w0, w) && StatusOnly(s, w1, w, w1.mjs[s].status.(activeActions := []))
  {
    Steps.TokenDropped(env, w1, s);
    var l := Steps.DropLabel(w1, s);
    FollowsNext(env, w0, w1, l);
    w := Next(w1, l);
  }

  lemma CartFinished(env: Env, s: string, w0: World, w1: World) returns (w: World)
    requires EnvOK(env) && Reachable(env, w0)
    requires Follows(env, w0, w1) && s in w1.mjs && w1.mjs[s].status.activeActions == [] && s !in env.quiet
    requires w1.mjs[s].status.currentRun.Some? && MayDrain(w1, s) && CartIsBack(w1)
    ensures Follows(env, w0, w) && IdleOwner(w, s) && CartIsBack(w)
  {
    ReachableFollows(env, w0, w1);
    Past(env, w1, s);
    Steps.FinishStep(env, w1, s);
    var l := Steps.FinishLabel(w1, s);
    FollowsNext(env, w0, w1, l);
    w := Next(w1, l);
  }

  /** The sweep lists the target while the scenario's mark is on it, and looks its owner up when that
      has drained and come to rest: the target, restored meanwhile, is taken for an orphan. */
  lemma SweepRaceLosesTarget(env: Env, s: string) returns (listed: World, later: World)
    requires CartEnv(s, env) && env.freshReads
    ensures Reachable(env, listed) && Follows(env, listed, later) && OwnTarget(env, s, "cart")
    ensures "cart" in listed.deployments && ListedIsDeleted(listed, later, "cart") && CartIsBack(later)
  {
    listed := RolledOut(env, s);
    RolloutAlone();
    var w1 := CartReverted(env, s, listed);
    var w2 := CartDropped(env, s, listed, w1);
    later := CartFinished(env, s, listed, w2);
  }
}
