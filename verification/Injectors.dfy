/** Ensure and Revert of the five action types, step by step against the API. Each is proved to have
    the effect its specification in Actions gives, unless a call fails. */
module Injectors {
  import opened Prelude
  import opened Names
  import opened Api
  import A = Actions
  import opened Protocol
  import opened Invariants
  import opened Interference
  import opened ApiServers

  /** The specified effect happened and was reported; or a call failed, an error was reported, and the
      one write was made or not. */
  predicate Effected(before: World, after: World, o: Outcome, spec: A.Effect, calm: bool) {
    || (after == spec.world && o == spec.outcome)
    || (!calm && o.Error? && (after == before || after == spec.world))
  }

  // ---------- Scale ----------

  method ScaleEnsure(api: ApiServer, rc: RunContext, spec: Action, t: Token) returns (o: Outcome)
    requires t.ScaleToken?
    modifies api`world, api`faults
    ensures old(api.faults) <= api.faults
    ensures Effected(old(api.world), api.world, o, A.ScaleEnsure(old(api.world), rc, spec, t),
                     api.faults == old(api.faults))
  {
    if spec.scale.None? {
      return Error(MissingConfig);
    }
    var replicas := spec.scale.value.replicas;
    var found, failed := api.GetDeployment(t.name);
    if failed {
      return Error(ApiFailure);
    }
    if found.None? {
      return Error(TargetMissing);
    }
    var dep := found.value;
    var heldBy := rc.scenario + "/" + rc.runID;
    var cur := dep.heldBy;
    if cur != "" && !(rc.scenario + "/" <= cur) {
      var other, lookupFailed := api.GetHolder(CutBefore(cur, '/'));
      if lookupFailed {
        return Error(ApiFailure);
      }
      if other.Some? && (other.value.status.currentRun.Some? || |other.value.status.activeActions| > 0) {
        return Error(HeldByAnother);
      }
      // The holder is gone or idle: its stamp is stale and may be replaced.
    }
    if dep.replicas == Some(replicas) && dep.heldBy == heldBy {
      return Done;
    }
    dep := dep.(replicas := Some(replicas));
    dep := dep.(heldBy := heldBy);
    var ok := api.PatchDeployment(t.name, dep);
    o := if ok then Done else Error(ApiFailure);
  }

  method ScaleRevert(api: ApiServer, rc: RunContext, t: Token) returns (o: Outcome)
    requires t.ScaleToken?
    modifies api`world, api`faults
    ensures old(api.faults) <= api.faults
    ensures Effected(old(api.world), api.world, o, A.ScaleRevert(old(api.world), rc, t),
                     api.faults == old(api.faults))
  {
    var found, failed := api.GetDeployment(t.name);
    if failed {
      return Error(ApiFailure);
    }
    if found.None? {
      return Done;
    }
    var dep := found.value;
    var holder := dep.heldBy;
    if holder != "" && !(rc.scenario + "/" <= holder) {
      return Done;
    }
    if dep.replicas == Some(t.previousReplicas) && holder == "" {
      return Done;
    }
    dep := dep.(replicas := Some(t.previousReplicas));
    dep := dep.(heldBy := "");
    var ok := api.PatchDeployment(t.name, dep);
    o := if ok then Done else Error(ApiFailure);
  }

  // ---------- DeployImage ----------

  method DeployImageEnsure(api: ApiServer, rc: RunContext, spec: Action, t: Token, settled: bool) returns (o: Outcome)
    requires t.DeployImageToken?
    modifies api`world, api`faults
    ensures old(api.faults) <= api.faults
    ensures Effected(old(api.world), api.world, o, A.DeployImageEnsure(old(api.world), rc, spec, t, settled),
                     api.faults == old(api.faults))
  {
    if spec.deployImage.None? {
      return Error(MissingConfig);
    }
    var found, failed := api.GetDeployment(t.name);
    if failed {
      return Error(ApiFailure);
    }
    if found.None? {
      return Error(TargetMissing);
    }
    var dep := found.value;
    if dep.heldBy != "" && !(rc.scenario + "/" <= dep.heldBy) {
      return Error(HeldByAnother);
    }
    var idx := ContainerIndex(dep.containers, t.container);
    if idx < 0 {
      return Error(NoSuchContainer);
    }
    if dep.containers[idx].image != t.badImage {
      // Marker and image land in one patch.
      dep := dep.(knownGood := dep.knownGood[t.container := t.goodImage]);
      dep := dep.(heldBy := rc.scenario + "/" + rc.runID);
      dep := dep.(scenario := Some(rc.scenario));
      dep := dep.(containers := dep.containers[idx := dep.containers[idx].(image := t.badImage)]);
      var ok := api.PatchDeployment(t.name, dep);
      return if ok then Wait(5 * SECOND) else Error(ApiFailure);
    }
    o := if settled then Done else Wait(10 * SECOND);
  }

  method DeployImageRevert(api: ApiServer, rc: RunContext, t: Token) returns (o: Outcome)
    requires t.DeployImageToken?
    modifies api`world, api`faults
    ensures old(api.faults) <= api.faults
    ensures Effected(old(api.world), api.world, o, A.DeployImageRevert(old(api.world), rc, t),
                     api.faults == old(api.faults))
  {
    var found, failed := api.GetDeployment(t.name);
    if failed {
      return Error(ApiFailure);
    }
    if found.None? {
      return Done;
    }
    var dep := found.value;
    var holder := dep.heldBy;
    if holder != "" && !(rc.scenario + "/" <= holder) {
      return Done;
    }
    var idx := ContainerIndex(dep.containers, t.container);
    var current := "";
    if idx >= 0 {
      current := dep.containers[idx].image;
    }
    var needsImageRestore := idx >= 0 && current == t.badImage;
    var hasKnownGood := t.container in dep.knownGood;
    if !needsImageRestore && !hasKnownGood && holder == "" {
      return Done;
    }
    if needsImageRestore {
      dep := dep.(containers := dep.containers[idx := dep.containers[idx].(image := t.goodImage)]);
    }
    dep := dep.(knownGood := dep.knownGood - {t.container});
    dep := dep.(heldBy := "");
    dep := dep.(scenario := None);
    var ok := api.PatchDeployment(t.name, dep);
    if !ok {
      return Error(ApiFailure);
    }
    o := if needsImageRestore then Wait(5 * SECOND) else Done;
  }

  // ---------- Workload ----------

  /** The Job of a Workload action; the deadline is built up as the defaults are replaced. */
  method BuildJob(now: Time, rc: RunContext, wa: WorkloadAction) returns (job: Job)
    ensures job == Job(Some(rc.scenario), Load(A.Margin(wa)), Running, false, now,
                       A.DeadlineSeconds(A.Margin(wa), rc.runDuration))
  {
    var margin := A.DEFAULT_DEADLINE_MARGIN;
    if wa.deadlineMargin.Some? {
      margin := wa.deadlineMargin.value;
    }
    var deadline := A.UNBOUNDED_RUN_DEADLINE;
    if rc.runDuration > 0 {
      deadline := rc.runDuration + margin;
    }
    // Go's integer division truncates toward zero.
    var seconds := if deadline >= 0 then deadline / SECOND else -((-deadline) / SECOND);
    job := Job(Some(rc.scenario), Load(margin), Running, false, now, seconds);
  }

  method WorkloadEnsure(api: ApiServer, rc: RunContext, spec: Action, t: Token) returns (o: Outcome)
    requires t.WorkloadToken?
    modifies api`world, api`faults
    ensures old(api.faults) <= api.faults
    ensures Effected(old(api.world), api.world, o, A.WorkloadEnsure(old(api.world), rc, spec, t),
                     api.faults == old(api.faults))
  {
    var existing, failed := api.GetJob(t.name);
    if failed {
      return Error(ApiFailure);
    }
    if existing.Some? {
      return if existing.value.scenario != Some(rc.scenario) then Error(NameConflict) else Done;
    }
    if spec.workload.None? {
      return Error(MissingConfig);
    }
    var wa := spec.workload.value;
    var job := BuildJob(api.world.clock, rc, wa);
    if wa.name in api.world.jobs {
      return Wait(SECOND);
    }
    var ok := api.WriteJob(wa.name, job);
    o := if ok then Done else Error(ApiFailure);
  }

  method WorkloadRevert(api: ApiServer, rc: RunContext, t: Token) returns (o: Outcome)
    requires t.WorkloadToken?
    modifies api`world, api`faults
    ensures old(api.faults) <= api.faults
    ensures Effected(old(api.world), api.world, o, A.WorkloadRevert(old(api.world), rc, t),
                     api.faults == old(api.faults))
  {
    var found, failed := api.GetJob(t.name);
    if failed {
      return Error(ApiFailure);
    }
    if found.None? || found.value.scenario != Some(rc.scenario) {
      return Done;
    }
    var job := found.value;
    if !job.deleting {
      var ok := api.WriteJob(t.name, job.(deleting := true));
      if !ok {
        return Error(ApiFailure);
      }
    } else {
      assert api.world.jobs[t.name := job] == api.world.jobs;
    }
    o := Wait(2 * SECOND);
  }

  // ---------- ChaosMesh ----------

  method ChaosMeshEnsure(api: ApiServer, rc: RunContext, spec: Action, t: Token) returns (o: Outcome)
    requires t.ChaosMeshToken?
    modifies api`world, api`faults
    ensures old(api.faults) <= api.faults
    ensures Effected(old(api.world), api.world, o, A.ChaosMeshEnsure(old(api.world), rc, spec, t),
                     api.faults == old(api.faults))
  {
    if spec.chaosMesh.None? {
      return Error(MissingConfig);
    }
    var key := ChaosKey(t.kind, t.name);
    var existing, failed := api.GetChaos(key);
    if failed {
      return Error(ApiFailure);
    }
    if existing.Some? {
      return if existing.value.scenario != Some(rc.scenario) then Error(NameConflict) else Done;
    }
    var lifetime := None;
    if !spec.chaosMesh.value.ownDuration {
      lifetime := Some(A.ChaosDuration(rc.runDuration));
    }
    var ok := api.WriteChaos(key, Chaos(Some(rc.scenario), false, api.world.clock, lifetime));
    o := if ok then Done else Error(ApiFailure);
  }

  method ChaosMeshRevert(api: ApiServer, rc: RunContext, t: Token) returns (o: Outcome)
    requires t.ChaosMeshToken?
    modifies api`world, api`faults
    ensures old(api.faults) <= api.faults
    ensures Effected(old(api.world), api.world, o, A.ChaosMeshRevert(old(api.world), rc, t),
                     api.faults == old(api.faults))
  {
    var key := ChaosKey(t.kind, t.name);
    var found, failed := api.GetChaos(key);
    if failed {
      return Error(ApiFailure);
    }
    if found.None? || found.value.scenario != Some(rc.scenario) {
      return Done;
    }
    var obj := found.value;
    if !obj.deleting {
      var ok := api.WriteChaos(key, obj.(deleting := true));
      if !ok {
        return Error(ApiFailure);
      }
    } else {
      assert api.world.chaos[key := obj] == api.world.chaos;
    }
    o := Wait(2 * SECOND);
  }

  // ---------- DBExec ----------

  method RunJob(api: ApiServer, rc: RunContext, name: string, phase: ExecPhase) returns (o: Outcome)
    modifies api`world, api`faults
    ensures old(api.faults) <= api.faults
    ensures Effected(old(api.world), api.world, o, A.RunJob(old(api.world), rc, name, phase),
                     api.faults == old(api.faults))
  {
    var found, failed := api.GetJob(name);
    if failed {
      return Error(ApiFailure);
    }
    if found.Some? {
      var job := found.value;
      if job.scenario != Some(rc.scenario) {
        return Error(NameConflict);
      }
      if job.state == Succeeded {
        return Done;
      }
      if job.state == JobFailed {
        // A failed Job cannot retry in place: clear it away, best effort, and surface the error.
        if !job.deleting {
          var _ := api.WriteJob(name, job.(deleting := true));
        }
        return Error(ExecJobFailed);
      }
      return Wait(2 * SECOND);
    }
    var origin := Exec(rc.runID, A.EraOf(api.world, rc.scenario), phase);
    var job := Job(Some(rc.scenario), origin, Running, false, api.world.clock, A.EXEC_JOB_DEADLINE / SECOND);
    var ok := api.WriteJob(name, job);
    o := if ok then Wait(2 * SECOND) else Error(ApiFailure);
  }

  method DBExecEnsure(api: ApiServer, rc: RunContext, spec: Action, t: Token) returns (o: Outcome)
    requires t.DBExecToken?
    modifies api`world, api`faults
    ensures old(api.faults) <= api.faults
    ensures Effected(old(api.world), api.world, o, A.DBExecEnsure(old(api.world), rc, spec, t),
                     api.faults == old(api.faults))
  {
    if spec.dbExec.None? {
      return Error(MissingConfig);
    }
    o := RunJob(api, rc, t.ensureName, EnsurePhase);
  }

  method DBExecRevert(api: ApiServer, rc: RunContext, t: Token) returns (o: Outcome)
    requires t.DBExecToken?
    modifies api`world, api`faults
    ensures old(api.faults) <= api.faults
    ensures Effected(old(api.world), api.world, o, A.DBExecRevert(old(api.world), rc, t),
                     api.faults == old(api.faults))
  {
    if |t.revert| == 0 {
      return Done;
    }
    o := RunJob(api, rc, t.revertName, RevertPhase);
  }

  // ---------- the registry ----------

  method Dispatch(api: ApiServer, rc: RunContext, spec: Action, t: Token, settled: bool) returns (o: Outcome)
    modifies api`world, api`faults
    ensures old(api.faults) <= api.faults
    ensures Effected(old(api.world), api.world, o, A.EnsureEffect(old(api.world), rc, spec, t, settled),
                     api.faults == old(api.faults))
  {
    if spec.atype != A.TokenType(t) {
      return Error(InvalidToken);
    }
    match t {
      case ScaleToken(_, _) => o := ScaleEnsure(api, rc, spec, t);
      case DeployImageToken(_, _, _, _) => o := DeployImageEnsure(api, rc, spec, t, settled);
      case WorkloadToken(_) => o := WorkloadEnsure(api, rc, spec, t);
      case ChaosMeshToken(_, _) => o := ChaosMeshEnsure(api, rc, spec, t);
      case DBExecToken(_, _, _) => o := DBExecEnsure(api, rc, spec, t);
    }
  }

  method DispatchRevert(api: ApiServer, rc: RunContext, t: Token) returns (o: Outcome)
    modifies api`world, api`faults
    ensures old(api.faults) <= api.faults
    ensures Effected(old(api.world), api.world, o, A.RevertEffect(old(api.world), rc, t),
                     api.faults == old(api.faults))
  {
    match t {
      case ScaleToken(_, _) => o := ScaleRevert(api, rc, t);
      case DeployImageToken(_, _, _, _) => o := DeployImageRevert(api, rc, t);
      case WorkloadToken(_) => o := WorkloadRevert(api, rc, t);
      case ChaosMeshToken(_, _) => o := ChaosMeshRevert(api, rc, t);
      case DBExecToken(_, _, _) => o := DBExecRevert(api, rc, t);
    }
  }

  /** Calls leave every MaintenanceJob and leak alone. */
  ghost predicate SameResources(w: World, w': World) {
    w'.mjs == w.mjs && w'.leaked == w.leaked && w'.clock == w.clock && w'.revision == w.revision
  }

  /** What a call, after others acted, left: the state before it, and the effect it had. */
  ghost predicate Called(env: Env, s: string, earlier: World, mid: World, now: World, o: Outcome, spec: A.Effect,
                         calm: bool) {
    Steady(env, s, earlier, mid) && SameResources(mid, now) && Effected(mid, now, o, spec, calm)
  }

  /** The last label of the trace, made in the world mid. */
  ghost predicate LastLabel(api: ApiServer, from: nat, mid: World, l: Label)
    reads api
  {
    from < |api.trace| && api.trace[|api.trace| - 1] == l && After(api.start, api.trace[..|api.trace| - 1]) == mid
  }

  method Ensure(api: ApiServer, s: string, spec: Action, t: Token, rc: RunContext)
      returns (o: Outcome, settled: bool, ghost mid: World)
    requires api.Valid() && ScenarioName(api.env, s) && rc.scenario == s
    requires forall w' | Steady(api.env, s, api.world, w') ::
               Allowed(api.env, w', CallEnsure(s, spec, t, rc, false)) &&
                 Allowed(api.env, w', CallEnsure(s, spec, t, rc, true))
    modifies api`world, api`trace, api`faults
    ensures api.Valid() && old(api.trace) <= api.trace && old(api.faults) <= api.faults
    ensures Called(api.env, s, old(api.world), mid, api.world, o, A.EnsureEffect(mid, rc, spec, t, settled),
                   api.faults == old(api.faults))
    ensures Own(s, api.trace) == old(Own(s, api.trace)) + [CallEnsure(s, spec, t, rc, settled)]
            || (o.Error? && Own(s, api.trace) == old(Own(s, api.trace)))
    ensures api.faults == old(api.faults) ==> LastLabel(api, |old(api.trace)|, mid, CallEnsure(s, spec, t, rc, settled))
  {
    api.Interleave(s);
    mid := api.world;
    ghost var before := api.trace;
    // Whether the rollout has settled, or timed out, when it is looked at: either is possible.
    settled := api.Undetermined();
    A.EnsureIsConfined(mid, rc, spec, t, settled);
    o := Dispatch(api, rc, spec, t, settled);
    // An error may hide a write that took effect.
    if !o.Error? || api.world != mid || api.faults == old(api.faults) {
      api.Log(CallEnsure(s, spec, t, rc, settled), mid);
      assert api.trace[..|api.trace| - 1] == before;
    }
  }

  method Revert(api: ApiServer, s: string, t: Token, rc: RunContext) returns (o: Outcome, ghost mid: World)
    requires api.Valid() && ScenarioName(api.env, s) && rc.scenario == s
    requires forall w' | Steady(api.env, s, api.world, w') :: Allowed(api.env, w', CallRevert(s, t, rc))
    modifies api`world, api`trace, api`faults
    ensures api.Valid() && old(api.trace) <= api.trace && old(api.faults) <= api.faults
    ensures Called(api.env, s, old(api.world), mid, api.world, o, A.RevertEffect(mid, rc, t),
                   api.faults == old(api.faults))
    ensures o == Done ==> Undone(api.world, s, t)
    ensures Own(s, api.trace) == old(Own(s, api.trace)) + [CallRevert(s, t, rc)]
            || (o.Error? && Own(s, api.trace) == old(Own(s, api.trace)))
    ensures api.faults == old(api.faults) ==> LastLabel(api, |old(api.trace)|, mid, CallRevert(s, t, rc))
  {
    api.Interleave(s);
    mid := api.world;
    ghost var before := api.trace;
    A.RevertIsConfined(mid, rc, t);
    o := DispatchRevert(api, rc, t);
    if o == Done {
      RevertDoneMeansUndone(mid, rc, t);
    }
    if !o.Error? || api.world != mid || api.faults == old(api.faults) {
      api.Log(CallRevert(s, t, rc), mid);
      assert api.trace[..|api.trace| - 1] == before;
    }
  }

  /** An Ensure that is still progressing asks to be looked at again within 1s to 10s: five seconds after
      it set an image, ten while the rollout goes on, two for an exec Job, one for a Job that was there. */
  lemma EnsureWaits(w: World, rc: RunContext, spec: Action, t: Token, settled: bool)
    ensures var e := A.EnsureEffect(w, rc, spec, t, settled);
            e.outcome.Wait? ==>
              && SECOND <= e.outcome.after <= 10 * SECOND
              && (t.DeployImageToken? ==> e.outcome.after == if e.world == w then 10 * SECOND else 5 * SECOND)
              && (t.DBExecToken? ==> e.outcome.after == 2 * SECOND)
              && (t.WorkloadToken? ==> e.outcome.after == SECOND)
  {
    if t.DeployImageToken? && t.name in w.deployments {
      var e := A.EnsureEffect(w, rc, spec, t, settled);
      assert e.world == w ==> e.world.deployments[t.name] == w.deployments[t.name];
    }
  }

  /** A Revert that is still progressing: five seconds after it set the image back, else two. */
  lemma RevertWaits(w: World, rc: RunContext, t: Token)
    ensures var o := A.RevertEffect(w, rc, t).outcome;
            o.Wait? ==> o.after == if t.DeployImageToken? then 5 * SECOND else 2 * SECOND
  {
  }
}
