/** Single steps of a scenario, each as the label that the operator, a user or the cluster may add in
    the situation described, and what it leaves. With them runs are put together. */
module Steps {
  import opened Prelude
  import opened Names
  import opened Api
  import opened Actions
  import opened Helpers
  import opened Protocol
  import opened Invariants
  import opened Theorems
  import opened Passes

  lemma ReachNext(env: Env, w: World, l: Label)
    requires Reachable(env, w) && Allowed(env, w, l)
    ensures Reachable(env, Next(w, l))
  {
    var start: World, ls :| LeadsTo(env, start, ls, w);
    LegalSnoc(env, start, ls, l);
    assert LeadsTo(env, start, ls + [l], Next(w, l));
  }

  /** Only the resource of s has been written. */
  ghost predicate Becomes(w: World, w': World, s: string, mj: MaintenanceJob) {
    w' == w.(mjs := w.mjs[s := mj.(version := w.revision + 1)], revision := w.revision + 1)
  }

  // ---------- users ----------

  lemma CreateStep(env: Env, w: World, s: string, spec: Spec)
    requires s !in w.mjs && ScenarioName(env, s) && s !in env.quiet &&
             (env.freshReads ==> ActionsOK(env, s, spec.actions))
    ensures var l := UserCreate(s, spec);
            Allowed(env, w, l) && Becomes(w, Next(w, l), s, NewMJ.(spec := spec))
  {
  }

  lemma ToggleStep(env: Env, w: World, s: string, enabled: bool, trigger: Option<TriggerSpec>,
                   duration: Option<Duration>)
    requires s in w.mjs && s !in env.quiet
    ensures var l := UserToggle(s, enabled, trigger, duration);
            && Allowed(env, w, l)
            && Becomes(w, Next(w, l), s, w.mjs[s].(spec := Spec(enabled, trigger, duration, w.mjs[s].spec.actions)))
  {
  }

  lemma EditStep(env: Env, w: World, s: string, actions: seq<Action>)
    requires s in w.mjs && s !in env.quiet
    requires env.freshReads ==> ActionsOK(env, s, actions) && Frozen(actions, w.mjs[s].status.activeActions)
    ensures var l := UserEdit(s, actions);
            && Allowed(env, w, l)
            && Becomes(w, Next(w, l), s, w.mjs[s].(spec := w.mjs[s].spec.(actions := actions)))
  {
  }

  // ---------- the operator ----------

  lemma FinalizerStep(env: Env, w: World, s: string)
    requires s in w.mjs && !w.mjs[s].finalizer && !w.mjs[s].deleting
    ensures var l := AddFinalizer(s); Allowed(env, w, l) && Becomes(w, Next(w, l), s, w.mjs[s].(finalizer := true))
  {
  }

  lemma DisableStep(env: Env, w: World, s: string)
    requires s in w.mjs && w.mjs[s].status.currentRun.Some?
    requires var run := w.mjs[s].status.currentRun.value; run.trigger == Enabled && Expired(run, w.clock)
    ensures var l := DisableExpired(s);
            && Allowed(env, w, l)
            && Becomes(w, Next(w, l), s, w.mjs[s].(spec := w.mjs[s].spec.(enabled := false)))
  {
  }

  lemma LeakStep(env: Env, w: World, s: string, key: string, t: Token)
    requires ScenarioName(env, s) && s + "." <= key
    ensures var l := Leak(s, map[key := t]); Allowed(env, w, l) && Next(w, l) == w.(leaked := w.leaked + map[key := t])
  {
  }

  function StartLabel(w: World, s: string, desired: Desired): Label
    requires s in w.mjs && desired.Desired?
  {
    PutStatus(s, Start(desired, w.clock),
              w.mjs[s].status.(currentRun := Some(NewRun(desired, w.clock)), phase := Activating))
  }

  lemma StartStep(env: Env, w: World, s: string, desired: Desired)
    requires s in w.mjs && w.mjs[s].finalizer && desired.Desired?
    requires w.mjs[s].status.currentRun.None? && w.mjs[s].status.activeActions == []
    requires ValidActions(w.mjs[s].spec.actions)
    requires env.freshReads ==> PastIsPast(w, s)
    requires s in env.quiet ==>
               desired == DesiredRun(w.mjs[s].spec, w.mjs[s].status, desired.runID) && !w.mjs[s].deleting
    ensures var l := StartLabel(w, s, desired);
            && Allowed(env, w, l)
            && Becomes(w, Next(w, l).(started := w.started), s, w.mjs[s].(status := l.status, era := w.revision + 1))
            && Next(w, l).started == w.started[w.revision + 1 := StartedRun(s, desired.runID)]
  {
    StatusShape(w, s, Start(desired, w.clock), StartLabel(w, s, desired).status);
  }

  function RecordLabel(env: Env, w: World, s: string, act: Action, t: Token): Label
    requires s in w.mjs
  {
    PutStatus(s, Record(act, RunContextOf(env, s, w.mjs[s].status.currentRun)),
              AppendOnce(w.mjs[s].status, ActiveAction(act.name, act.atype, Recorded, None, 0, None, t)))
  }

  lemma TokenRecorded(env: Env, w: World, s: string, act: Action, t: Token)
    requires s in w.mjs && w.mjs[s].finalizer && w.mjs[s].status.currentRun.Some?
    requires act in w.mjs[s].spec.actions && ValidActions(w.mjs[s].spec.actions)
    requires env.freshReads ==> act.delay.None? && PastIsPast(w, s)
    requires FindActiveAction(w.mjs[s].status.activeActions, act.name) < 0
    requires Plan(w, RunContextOf(env, s, w.mjs[s].status.currentRun), act) == Ok(t)
    ensures var l := RecordLabel(env, w, s, act, t);
            && Allowed(env, w, l) && Becomes(w, Next(w, l), s, w.mjs[s].(status := l.status))
            && l.status == w.mjs[s].status.(phase := Activating,
                                            activeActions := w.mjs[s].status.activeActions + [
                                              ActiveAction(act.name, act.atype, Recorded, None, 0, None, t)])
  {
    var l := RecordLabel(env, w, s, act, t);
    PlanIsFaithful(w, RunContextOf(env, s, w.mjs[s].status.currentRun), act);
    AppendOnceRecords(w.mjs[s].status, ActiveAction(act.name, act.atype, Recorded, None, 0, None, t), act, l.why.rc);
    PutStatusNext(w, s, l.why, l.status);
    assert l.status.activeActions[|w.mjs[s].status.activeActions|].token == t;
  }

  lemma EnsureStep(env: Env, w: World, s: string, act: Action, t: Token)
    requires s in w.mjs && NameOK(s) && act in w.mjs[s].spec.actions
    requires w.mjs[s].status.currentRun.Some? && Lasting(w.mjs[s].status.currentRun.value)
    requires var i := FindActiveAction(w.mjs[s].status.activeActions, act.name);
             i >= 0 && w.mjs[s].status.activeActions[i].token == t
    ensures var rc := RunContextOf(env, s, w.mjs[s].status.currentRun);
            var l := CallEnsure(s, act, t, rc, true);
            Allowed(env, w, l) && Next(w, l) == EnsureEffect(w, rc, act, t, true).world
  {
  }

  lemma RevertStep(env: Env, w: World, s: string, t: Token)
    requires s in w.mjs && NameOK(s) && w.mjs[s].status.activeActions != [] && MayDrain(w, s)
    requires w.mjs[s].status.activeActions[|w.mjs[s].status.activeActions| - 1].token == t
    ensures var rc := RunContextOf(env, s, w.mjs[s].status.currentRun);
            var l := CallRevert(s, t, rc);
            Allowed(env, w, l) && Next(w, l) == RevertEffect(w, rc, t).world
  {
  }

  function DropLabel(w: World, s: string): Label
    requires s in w.mjs && w.mjs[s].status.activeActions != []
  {
    var st := w.mjs[s].status;
    var name := st.activeActions[|st.activeActions| - 1].name;
    PutStatus(s, Drop(name), st.(activeActions := Without(st.activeActions, name)))
  }

  lemma TokenDropped(env: Env, w: World, s: string)
    requires s in w.mjs && w.mjs[s].status.activeActions != [] && DistinctNames(w.mjs[s].status.activeActions)
    requires MayDrain(w, s)
    requires var list := w.mjs[s].status.activeActions; Undone(w, s, list[|list| - 1].token)
    ensures var l, list := DropLabel(w, s), w.mjs[s].status.activeActions;
            && Allowed(env, w, l)
            && Becomes(w, Next(w, l), s,
                       w.mjs[s].(status := w.mjs[s].status.(activeActions := list[..|list| - 1])))
  {
    var l, list := DropLabel(w, s), w.mjs[s].status.activeActions;
    assert FindActiveAction(list, list[|list| - 1].name) == |list| - 1;
    assert Without(list, list[|list| - 1].name) == list[..|list| - 1];
    PutStatusNext(w, s, l.why, l.status);
  }

  function EntryNow(w: World, s: string): RunHistoryEntry
    requires s in w.mjs && w.mjs[s].status.currentRun.Some?
  {
    var run := w.mjs[s].status.currentRun.value;
    RunHistoryEntry(run.id, run.trigger, run.startedAt, w.clock,
                    if Expired(run, w.clock) then Completed else RunResult.Reverted)
  }

  function FinishLabel(w: World, s: string): Label
    requires s in w.mjs && w.mjs[s].status.currentRun.Some?
  {
    PutStatus(s, Finish(EntryNow(w, s)), FinishedStatus(w.mjs[s].status, EntryNow(w, s)))
  }

  lemma FinishStep(env: Env, w: World, s: string)
    requires s in w.mjs && w.mjs[s].status.currentRun.Some? && w.mjs[s].status.activeActions == [] && MayDrain(w, s)
    requires env.freshReads ==> PastIsPast(w, s)
    requires s in env.quiet && w.mjs[s].status.currentRun.value.trigger == Enabled ==> !w.mjs[s].spec.enabled
    ensures var l := FinishLabel(w, s);
            && Allowed(env, w, l)
            && Becomes(w, Next(w, l), s,
                       w.mjs[s].(status := l.status, audit := w.mjs[s].audit + [EntryNow(w, s)]))
  {
    var l := FinishLabel(w, s);
    assert Next(w, l) == StatusWritten(w, s, l.why, l.status);
  }

  // ---------- the cluster ----------

  lemma JobStep(env: Env, w: World, n: string, ok: bool)
    requires n in w.jobs && w.jobs[n].state == Running
    ensures var l := JobFinishes(n, ok);
            && Allowed(env, w, l)
            && Next(w, l) == PutJob(w, n, w.jobs[n].(state := if ok then Succeeded else JobFailed))
  {
  }

  lemma TickStep(env: Env, w: World, now: Time)
    requires w.clock <= now
    ensures Allowed(env, w, Tick(now)) && Next(w, Tick(now)) == w.(clock := now)
  {
  }
}
