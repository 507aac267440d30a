/** What the five injection primitives do, as functions from the cluster to the cluster and an
    outcome. Each Ensure and Revert call makes at most one API write. */
module Actions {
  import opened Prelude
  import opened Names
  import opened Api

  datatype Effect = Effect(world: World, outcome: Outcome)

  function Stamp(rc: RunContext): string {
    rc.scenario + "/" + rc.runID
  }

  predicate HeldByOther(dep: Deployment, scenario: string) {
    dep.heldBy != "" && !(scenario + "/" <= dep.heldBy)
  }

  predicate InFlight(mj: MaintenanceJob) {
    mj.status.currentRun.Some? || mj.status.activeActions != []
  }

  predicate HolderLives(w: World, stamp: string) {
    var other := CutBefore(stamp, '/');
    other in w.mjs && InFlight(w.mjs[other])
  }

  function PutDeployment(w: World, name: string, dep: Deployment): World {
    w.(deployments := w.deployments[name := dep])
  }

  // ---------- Scale ----------

  function ScalePlan(w: World, spec: Action): Result<Token, Problem> {
    if spec.scale.None? then Err(MissingConfig)
    else
      var target := spec.scale.value.target;
      if target !in w.deployments then Err(TargetMissing)
      else Ok(ScaleToken(target, Replicas(w.deployments[target])))
  }

  function ScaleEnsure(w: World, rc: RunContext, spec: Action, t: Token): Effect
    requires t.ScaleToken?
  {
    if spec.scale.None? then Effect(w, Error(MissingConfig))
    else if t.name !in w.deployments then Effect(w, Error(TargetMissing))
    else
      var dep := w.deployments[t.name];
      if HeldByOther(dep, rc.scenario) && HolderLives(w, dep.heldBy) then Effect(w, Error(HeldByAnother))
      else if dep.replicas == Some(spec.scale.value.replicas) && dep.heldBy == Stamp(rc) then Effect(w, Done)
      else Effect(PutDeployment(w, t.name, dep.(replicas := Some(spec.scale.value.replicas), heldBy := Stamp(rc))),
                  Done)
  }

  function ScaleRevert(w: World, rc: RunContext, t: Token): Effect
    requires t.ScaleToken?
  {
    if t.name !in w.deployments then Effect(w, Done)
    else
      var dep := w.deployments[t.name];
      if HeldByOther(dep, rc.scenario) then Effect(w, Done)
      else if dep.replicas == Some(t.previousReplicas) && dep.heldBy == "" then Effect(w, Done)
      else Effect(PutDeployment(w, t.name, dep.(replicas := Some(t.previousReplicas), heldBy := "")), Done)
  }

  // ---------- DeployImage ----------

  /** The rollback target: the spec's, else the known-good annotation's, else what runs now. */
  function GoodImage(dep: Deployment, da: DeployImageAction): string {
    var annotated := Lookup(dep.knownGood, da.container);
    if da.knownGoodImage != "" then da.knownGoodImage
    else if annotated != "" then annotated
    else ImageOf(dep.containers, da.container)
  }

  function DeployImagePlan(w: World, spec: Action): Result<Token, Problem> {
    if spec.deployImage.None? then Err(MissingConfig)
    else
      var da := spec.deployImage.value;
      if da.target !in w.deployments then Err(TargetMissing)
      else
        var dep := w.deployments[da.target];
        if ImageOf(dep.containers, da.container) == "" then Err(NoSuchContainer)
        else if GoodImage(dep, da) == da.image then Err(NoKnownGoodImage)
        else Ok(DeployImageToken(da.target, da.container, GoodImage(dep, da), da.image))
  }

  function SetImage(cs: seq<Container>, i: nat, image: string): seq<Container>
    requires i < |cs|
  {
    cs[i := cs[i].(image := image)]
  }

  /** settled: the rollout is complete, or its timeout has passed, when it is observed. */
  function DeployImageEnsure(w: World, rc: RunContext, spec: Action, t: Token, settled: bool): Effect
    requires t.DeployImageToken?
  {
    if spec.deployImage.None? then Effect(w, Error(MissingConfig))
    else if t.name !in w.deployments then Effect(w, Error(TargetMissing))
    else
      var dep := w.deployments[t.name];
      var idx := ContainerIndex(dep.containers, t.container);
      if HeldByOther(dep, rc.scenario) then Effect(w, Error(HeldByAnother))
      else if idx < 0 then Effect(w, Error(NoSuchContainer))
      else if dep.containers[idx].image != t.badImage then
        var patched := dep.(
          containers := SetImage(dep.containers, idx, t.badImage),
          knownGood := dep.knownGood[t.container := t.goodImage],
          heldBy := Stamp(rc),
          scenario := Some(rc.scenario));
        Effect(PutDeployment(w, t.name, patched), Wait(5 * SECOND))
      else Effect(w, if settled then Done else Wait(10 * SECOND))
  }

  function DeployImageRevert(w: World, rc: RunContext, t: Token): Effect
    requires t.DeployImageToken?
  {
    if t.name !in w.deployments then Effect(w, Done)
    else
      var dep := w.deployments[t.name];
      var idx := ContainerIndex(dep.containers, t.container);
      var restore := idx >= 0 && dep.containers[idx].image == t.badImage;
      if HeldByOther(dep, rc.scenario) then Effect(w, Done)
      else if !restore && t.container !in dep.knownGood && dep.heldBy == "" then Effect(w, Done)
      else
        var patched := dep.(
          containers := if restore then SetImage(dep.containers, idx, t.goodImage) else dep.containers,
          knownGood := dep.knownGood - {t.container},
          heldBy := "",
          scenario := None);
        Effect(PutDeployment(w, t.name, patched), if restore then Wait(5 * SECOND) else Done)
  }

  // ---------- Jobs ----------

  predicate Ours(owner: Option<string>, rc: RunContext) {
    owner == Some(rc.scenario)
  }

  function PutJob(w: World, name: string, job: Job): World {
    w.(jobs := w.jobs[name := job])
  }

  const DEFAULT_DEADLINE_MARGIN: Duration := 5 * MINUTE
  const UNBOUNDED_RUN_DEADLINE: Duration := 24 * HOUR

  function Margin(wa: WorkloadAction): Duration {
    if wa.deadlineMargin.Some? then wa.deadlineMargin.value else DEFAULT_DEADLINE_MARGIN
  }

  /** The dead-man timer of a Workload Job, in whole seconds, truncated toward zero. */
  function DeadlineSeconds(margin: Duration, runDuration: Duration): int {
    var deadline := if runDuration > 0 then runDuration + margin else UNBOUNDED_RUN_DEADLINE;
    if deadline >= 0 then deadline / SECOND else -((-deadline) / SECOND)
  }

  function LoadJob(w: World, rc: RunContext, wa: WorkloadAction): Job {
    Job(Some(rc.scenario), Load(Margin(wa)), Running, false, w.clock, DeadlineSeconds(Margin(wa), rc.runDuration))
  }

  function WorkloadPlan(w: World, rc: RunContext, spec: Action): Result<Token, Problem> {
    if spec.workload.None? then Err(MissingConfig)
    else
      var name := spec.workload.value.name;
      if name in w.jobs && !Ours(w.jobs[name].scenario, rc) then Err(NameConflict)
      else Ok(WorkloadToken(name))
  }

  function WorkloadEnsure(w: World, rc: RunContext, spec: Action, t: Token): Effect
    requires t.WorkloadToken?
  {
    if t.name in w.jobs then
      Effect(w, if Ours(w.jobs[t.name].scenario, rc) then Done else Error(NameConflict))
    else if spec.workload.None? then Effect(w, Error(MissingConfig))
    else
      var wa := spec.workload.value;
      if wa.name in w.jobs then Effect(w, Wait(SECOND))
      else Effect(PutJob(w, wa.name, LoadJob(w, rc, wa)), Done)
  }

  function WorkloadRevert(w: World, rc: RunContext, t: Token): Effect
    requires t.WorkloadToken?
  {
    if t.name !in w.jobs || !Ours(w.jobs[t.name].scenario, rc) then Effect(w, Done)
    else Effect(PutJob(w, t.name, w.jobs[t.name].(deleting := true)), Wait(2 * SECOND))
  }

  // ---------- Chaos Mesh objects ----------

  const CHAOS_DEADMAN_MARGIN: Duration := 5 * MINUTE
  const CHAOS_UNBOUNDED_DURATION: Duration := 24 * HOUR

  function ChaosName(ca: ChaosMeshAction, rc: RunContext, actionName: string): string {
    SanitizeDNS1123(if ca.name != "" then ca.name else "mj-" + rc.scenario + "-" + actionName)
  }

  function ChaosDuration(runDuration: Duration): Duration {
    if runDuration <= 0 then CHAOS_UNBOUNDED_DURATION else runDuration + CHAOS_DEADMAN_MARGIN
  }

  function ChaosMeshPlan(w: World, rc: RunContext, spec: Action): Result<Token, Problem> {
    if spec.chaosMesh.None? then Err(MissingConfig)
    else
      var ca := spec.chaosMesh.value;
      var key := ChaosKey(ca.kind, ChaosName(ca, rc, spec.name));
      if key in w.chaos && !Ours(w.chaos[key].scenario, rc) then Err(NameConflict)
      else Ok(ChaosMeshToken(key.kind, key.name))
  }

  function ChaosMeshEnsure(w: World, rc: RunContext, spec: Action, t: Token): Effect
    requires t.ChaosMeshToken?
  {
    var key := ChaosKey(t.kind, t.name);
    if spec.chaosMesh.None? then Effect(w, Error(MissingConfig))
    else if key in w.chaos then
      Effect(w, if Ours(w.chaos[key].scenario, rc) then Done else Error(NameConflict))
    else
      var lifetime := if spec.chaosMesh.value.ownDuration then None else Some(ChaosDuration(rc.runDuration));
      Effect(w.(chaos := w.chaos[key := Chaos(Some(rc.scenario), false, w.clock, lifetime)]), Done)
  }

  function ChaosMeshRevert(w: World, rc: RunContext, t: Token): Effect
    requires t.ChaosMeshToken?
  {
    var key := ChaosKey(t.kind, t.name);
    if key !in w.chaos || !Ours(w.chaos[key].scenario, rc) then Effect(w, Done)
    else Effect(w.(chaos := w.chaos[key := w.chaos[key].(deleting := true)]), Wait(2 * SECOND))
  }

  // ---------- DBExec ----------

  const EXEC_JOB_DEADLINE: Duration := 20 * MINUTE

  function DBExecPlan(w: World, rc: RunContext, spec: Action): Result<Token, Problem> {
    if spec.dbExec.None? then Err(MissingConfig)
    else
      var da := spec.dbExec.value;
      var ensure, revert := ExecEnsureName(da.name, rc.digest), ExecRevertName(da.name, rc.digest);
      if (ensure in w.jobs && !Ours(w.jobs[ensure].scenario, rc)) ||
        (revert in w.jobs && !Ours(w.jobs[revert].scenario, rc))
      then Err(NameConflict)
      else Ok(DBExecToken(ensure, revert, da.revert))
  }

  /** The era of the scenario's latest run. */
  function EraOf(w: World, scenario: string): nat {
    if scenario in w.mjs then w.mjs[scenario].era else 0
  }

  /** Drives one exec Job: create it, wait for it, clear it away when it failed. */
  function RunJob(w: World, rc: RunContext, name: string, phase: ExecPhase): Effect {
    if name in w.jobs then
      var job := w.jobs[name];
      if !Ours(job.scenario, rc) then Effect(w, Error(NameConflict))
      else if job.state == Succeeded then Effect(w, Done)
      else if job.state == JobFailed then Effect(PutJob(w, name, job.(deleting := true)), Error(ExecJobFailed))
      else Effect(w, Wait(2 * SECOND))
    else
      var origin := Exec(rc.runID, EraOf(w, rc.scenario), phase);
      var job := Job(Some(rc.scenario), origin, Running, false, w.clock, EXEC_JOB_DEADLINE / SECOND);
      Effect(PutJob(w, name, job), Wait(2 * SECOND))
  }

  function DBExecEnsure(w: World, rc: RunContext, spec: Action, t: Token): Effect
    requires t.DBExecToken?
  {
    if spec.dbExec.None? then Effect(w, Error(MissingConfig))
    else RunJob(w, rc, t.ensureName, EnsurePhase)
  }

  function DBExecRevert(w: World, rc: RunContext, t: Token): Effect
    requires t.DBExecToken?
  {
    if t.revert == [] then Effect(w, Done)
    else RunJob(w, rc, t.revertName, RevertPhase)
  }

  // ---------- the registry ----------

  function TokenType(t: Token): ActionType {
    match t
    case ScaleToken(_, _) => ScaleType
    case DeployImageToken(_, _, _, _) => DeployImageType
    case WorkloadToken(_) => WorkloadType
    case ChaosMeshToken(_, _) => ChaosMeshType
    case DBExecToken(_, _, _) => DBExecType
  }

  function Plan(w: World, rc: RunContext, spec: Action): Result<Token, Problem> {
    match spec.atype
    case ScaleType => ScalePlan(w, spec)
    case DeployImageType => DeployImagePlan(w, spec)
    case WorkloadType => WorkloadPlan(w, rc, spec)
    case ChaosMeshType => ChaosMeshPlan(w, rc, spec)
    case DBExecType => DBExecPlan(w, rc, spec)
    case OtherType(_) => Err(UnknownAction)
  }

  /** The Ensure of the action's type; a token of another type does not decode. */
  function EnsureEffect(w: World, rc: RunContext, spec: Action, t: Token, settled: bool): Effect {
    if spec.atype != TokenType(t) then Effect(w, Error(InvalidToken))
    else match t
      case ScaleToken(_, _) => ScaleEnsure(w, rc, spec, t)
      case DeployImageToken(_, _, _, _) => DeployImageEnsure(w, rc, spec, t, settled)
      case WorkloadToken(_) => WorkloadEnsure(w, rc, spec, t)
      case ChaosMeshToken(_, _) => ChaosMeshEnsure(w, rc, spec, t)
      case DBExecToken(_, _, _) => DBExecEnsure(w, rc, spec, t)
  }

  function RevertEffect(w: World, rc: RunContext, t: Token): Effect {
    match t
    case ScaleToken(_, _) => ScaleRevert(w, rc, t)
    case DeployImageToken(_, _, _, _) => DeployImageRevert(w, rc, t)
    case WorkloadToken(_) => WorkloadRevert(w, rc, t)
    case ChaosMeshToken(_, _) => ChaosMeshRevert(w, rc, t)
    case DBExecToken(_, _, _) => DBExecRevert(w, rc, t)
  }

  // ---------- what a call may touch ----------

  predicate Targets(t: Token, d: string) {
    (t.ScaleToken? || t.DeployImageToken?) && t.name == d
  }

  /** A call made for a scenario with a token changes at most that token's Deployment, and of the
      Jobs and chaos objects only its own. */
  ghost predicate Confined(w: World, w': World, scenario: string, t: Token) {
    && w' == w.(deployments := w'.deployments, jobs := w'.jobs, chaos := w'.chaos)
    && w'.deployments.Keys == w.deployments.Keys
    && (forall d | d in w.deployments :: Targets(t, d) || w'.deployments[d] == w.deployments[d])
    && (forall n | n in w.jobs :: n in w'.jobs && (w.jobs[n].scenario == Some(scenario) || w'.jobs[n] == w.jobs[n]))
    && (forall n | n in w'.jobs :: n in w.jobs || w'.jobs[n].scenario == Some(scenario))
    && (forall n | n in w'.jobs && n in w.jobs :: w'.jobs[n] == w.jobs[n].(deleting := w'.jobs[n].deleting))
    && (forall k | k in w.chaos ::
          k in w'.chaos && (w.chaos[k].scenario == Some(scenario) || w'.chaos[k] == w.chaos[k]))
    && (forall k | k in w'.chaos :: k in w.chaos || w'.chaos[k].scenario == Some(scenario))
    && (forall k | k in w'.chaos && k in w.chaos :: w'.chaos[k] == w.chaos[k].(deleting := w'.chaos[k].deleting))
  }

  lemma ConfinedDeployment(w: World, name: string, dep: Deployment, scenario: string, t: Token)
    requires name in w.deployments && Targets(t, name)
    ensures Confined(w, PutDeployment(w, name, dep), scenario, t)
  {
  }

  lemma ConfinedJob(w: World, name: string, job: Job, scenario: string, t: Token)
    requires job.scenario == Some(scenario)
    requires name in w.jobs ==>
               w.jobs[name].scenario == Some(scenario) && job == w.jobs[name].(deleting := job.deleting)
    ensures Confined(w, PutJob(w, name, job), scenario, t)
  {
  }

  lemma ConfinedChaos(w: World, key: ChaosKey, obj: Chaos, scenario: string, t: Token)
    requires obj.scenario == Some(scenario) && (key in w.chaos ==> obj == w.chaos[key].(deleting := obj.deleting))
    ensures Confined(w, w.(chaos := w.chaos[key := obj]), scenario, t)
  {
  }

  /** The calls that write, as one Deployment, Job or chaos object put back. */
  lemma EnsureIsConfined(w: World, rc: RunContext, spec: Action, t: Token, settled: bool)
    ensures Confined(w, EnsureEffect(w, rc, spec, t, settled).world, rc.scenario, t)
  {
    var w' := EnsureEffect(w, rc, spec, t, settled).world;
    if w' != w {
      match t {
        case ScaleToken(d, _) => ConfinedDeployment(w, d, w'.deployments[d], rc.scenario, t);
        case DeployImageToken(d, _, _, _) => ConfinedDeployment(w, d, w'.deployments[d], rc.scenario, t);
        case WorkloadToken(_) =>
          var n := spec.workload.value.name;
          ConfinedJob(w, n, w'.jobs[n], rc.scenario, t);
        case ChaosMeshToken(kind, n) =>
          ConfinedChaos(w, ChaosKey(kind, n), w'.chaos[ChaosKey(kind, n)], rc.scenario, t);
        case DBExecToken(n, _, _) => ConfinedJob(w, n, w'.jobs[n], rc.scenario, t);
      }
    }
  }

  lemma RevertIsConfined(w: World, rc: RunContext, t: Token)
    ensures Confined(w, RevertEffect(w, rc, t).world, rc.scenario, t)
  {
    var w' := RevertEffect(w, rc, t).world;
    if w' != w {
      match t {
        case ScaleToken(d, _) => ConfinedDeployment(w, d, w'.deployments[d], rc.scenario, t);
        case DeployImageToken(d, _, _, _) => ConfinedDeployment(w, d, w'.deployments[d], rc.scenario, t);
        case WorkloadToken(n) => ConfinedJob(w, n, w'.jobs[n], rc.scenario, t);
        case ChaosMeshToken(kind, n) =>
          ConfinedChaos(w, ChaosKey(kind, n), w'.chaos[ChaosKey(kind, n)], rc.scenario, t);
        case DBExecToken(_, n, _) => ConfinedJob(w, n, w'.jobs[n], rc.scenario, t);
      }
    }
  }

  /** The stamp of a scenario on a Deployment. */
  predicate HeldFor(dep: Deployment, scenario: string) {
    scenario + "/" <= dep.heldBy
  }

  /** Nothing of another scenario is disturbed: not a Deployment it holds while it has a run or
      tokens, not a Job or chaos object that is not ours. */
  ghost predicate LeavesAlone(w: World, w': World, mine: string, other: string) {
    && (forall d | d in w.deployments && HeldFor(w.deployments[d], other) && other in w.mjs && InFlight(w.mjs[other]) ::
          d in w'.deployments && w'.deployments[d] == w.deployments[d])
    && (forall n | n in w.jobs && w.jobs[n].scenario != Some(mine) :: n in w'.jobs && w'.jobs[n] == w.jobs[n])
    && (forall k | k in w.chaos && w.chaos[k].scenario != Some(mine) :: k in w'.chaos && w'.chaos[k] == w.chaos[k])
  }

  lemma StampOfAnother(dep: Deployment, mine: string, other: string)
    requires '/' !in mine && '/' !in other && mine != other
    requires HeldFor(dep, other)
    ensures HeldByOther(dep, mine) && CutBefore(dep.heldBy, '/') == other
  {
    PrefixIffCut(dep.heldBy, other, '/');
    if HeldFor(dep, mine) {
      PrefixDeterminesName(dep.heldBy, mine, other, '/');
    }
  }

  /** Held-by exclusion, for every action type, token and cluster. */
  lemma HeldByExclusion(w: World, rc: RunContext, other: string, spec: Action, t: Token, settled: bool)
    requires '/' !in rc.scenario && '/' !in other && rc.scenario != other
    ensures LeavesAlone(w, EnsureEffect(w, rc, spec, t, settled).world, rc.scenario, other)
    ensures LeavesAlone(w, RevertEffect(w, rc, t).world, rc.scenario, other)
  {
    EnsureIsConfined(w, rc, spec, t, settled);
    RevertIsConfined(w, rc, t);
    forall d | Targets(t, d) && d in w.deployments && HeldFor(w.deployments[d], other)
      ensures HeldByOther(w.deployments[d], rc.scenario) && CutBefore(w.deployments[d].heldBy, '/') == other
    {
      StampOfAnother(w.deployments[d], rc.scenario, other);
    }
  }

  // ---------- what Ensure reaches ----------

  /** The injection is live, as the spec and the token say. */
  predicate Injected(w: World, rc: RunContext, spec: Action, t: Token) {
    match t
    case ScaleToken(d, _) =>
      && d in w.deployments && spec.scale.Some?
      && Replicas(w.deployments[d]) == spec.scale.value.replicas && w.deployments[d].heldBy == Stamp(rc)
    case DeployImageToken(d, c, _, bad) =>
      && d in w.deployments && !HeldByOther(w.deployments[d], rc.scenario)
      && ContainerIndex(w.deployments[d].containers, c) >= 0 && ImageOf(w.deployments[d].containers, c) == bad
    case WorkloadToken(n) => n in w.jobs && w.jobs[n].scenario == Some(rc.scenario)
    case ChaosMeshToken(kind, n) =>
      ChaosKey(kind, n) in w.chaos && w.chaos[ChaosKey(kind, n)].scenario == Some(rc.scenario)
    case DBExecToken(n, _, _) => n in w.jobs && w.jobs[n].scenario == Some(rc.scenario) && w.jobs[n].state == Succeeded
  }

  /** Done means injected, and a further call then changes nothing and says done again. */
  lemma EnsureDoneMeansInjected(w: World, rc: RunContext, spec: Action, t: Token, settled: bool)
    requires EnsureEffect(w, rc, spec, t, settled).outcome == Done
    requires t.WorkloadToken? && spec.workload.Some? ==> spec.workload.value.name == t.name
    ensures var w' := EnsureEffect(w, rc, spec, t, settled).world;
            Injected(w', rc, spec, t) && EnsureEffect(w', rc, spec, t, settled) == Effect(w', Done)
  {
  }

  lemma SetImageKeepsIndex(cs: seq<Container>, i: nat, image: string, c: string)
    requires i < |cs|
    ensures ContainerIndex(SetImage(cs, i, image), c) == ContainerIndex(cs, c)
  {
    var cs' := SetImage(cs, i, image);
    var j, j' := ContainerIndex(cs, c), ContainerIndex(cs', c);
    if 0 <= j { assert cs'[j].name == c; }
    if 0 <= j' { assert cs[j'].name == c; }
  }

  /** Ensure reaches the injected image in one write and then only waits for the rollout. */
  lemma DeployImageEnsuresInTwo(w: World, rc: RunContext, spec: Action, t: Token)
    requires t.DeployImageToken? && DeployImageEnsure(w, rc, spec, t, true).outcome == Wait(5 * SECOND)
    ensures var w' := DeployImageEnsure(w, rc, spec, t, true).world;
            && w'.deployments[t.name].heldBy == Stamp(rc)
            && w'.deployments[t.name].knownGood == w.deployments[t.name].knownGood[t.container := t.goodImage]
            && w'.deployments[t.name].scenario == Some(rc.scenario)
            && DeployImageEnsure(w', rc, spec, t, true) == Effect(w', Done)
            && Injected(w', rc, spec, t)
  {
    var dep := w.deployments[t.name];
    SetImageKeepsIndex(dep.containers, ContainerIndex(dep.containers, t.container), t.badImage, t.container);
  }

  /** The round trip of one action on a target that is free: plan, inject, revert until done. The
      Deployment is as before, but that its replica count is spelled out. */
  lemma ScaleRoundTrip(w: World, rc: RunContext, spec: Action)
    requires ScalePlan(w, spec).Ok? && w.deployments[spec.scale.value.target].heldBy == ""
    ensures var t := ScalePlan(w, spec).value;
            var back := ScaleRevert(ScaleEnsure(w, rc, spec, t).world, rc, t);
            && back.outcome == Done
            && back.world == PutDeployment(w, t.name,
                                           w.deployments[t.name].(replicas := Some(Replicas(w.deployments[t.name]))))
  {
    var t := ScalePlan(w, spec).value;
    var back := ScaleRevert(ScaleEnsure(w, rc, spec, t).world, rc, t);
    assert rc.scenario + "/" <= Stamp(rc);
    assert back.world.deployments
           == w.deployments[t.name := w.deployments[t.name].(replicas := Some(Replicas(w.deployments[t.name])))];
  }

  lemma DeployImageRoundTrip(w: World, rc: RunContext, spec: Action)
    requires DeployImagePlan(w, spec).Ok? && spec.deployImage.value.knownGoodImage == ""
    requires var dep := w.deployments[spec.deployImage.value.target];
             dep.heldBy == "" && dep.scenario.None? && spec.deployImage.value.container !in dep.knownGood
    ensures var t := DeployImagePlan(w, spec).value;
            var injected := DeployImageEnsure(w, rc, spec, t, true).world;
            var once := DeployImageRevert(injected, rc, t);
            once.world == w && DeployImageRevert(once.world, rc, t) == Effect(w, Done)
  {
    var t := DeployImagePlan(w, spec).value;
    var dep := w.deployments[t.name];
    var i := ContainerIndex(dep.containers, t.container);
    var bad := SetImage(dep.containers, i, t.badImage);
    SetImageKeepsIndex(dep.containers, i, t.badImage, t.container);
    assert SetImage(bad, i, t.goodImage) == dep.containers;
    assert rc.scenario + "/" <= Stamp(rc);
    assert dep.knownGood[t.container := t.goodImage] - {t.container} == dep.knownGood;
    assert PutDeployment(w, t.name, dep).deployments == w.deployments;
    var injected := DeployImageEnsure(w, rc, spec, t, true).world;
    var once := DeployImageRevert(injected, rc, t);
    assert once.world.deployments == w.deployments[t.name := dep];
  }

  // ---------- Revert is a fixed point ----------

  /** Once Revert reports done, calling it again reports done and changes nothing. */
  lemma RevertFixedPoint(w: World, rc: RunContext, t: Token)
    requires RevertEffect(w, rc, t).outcome == Done
    ensures var w' := RevertEffect(w, rc, t).world;
            RevertEffect(w', rc, t) == Effect(w', Done)
  {
  }

  /** Revert succeeds at once, without a write, when the target is gone or is not ours. */
  lemma RevertToleratesAbsence(w: World, rc: RunContext, t: Token)
    requires match t
             case ScaleToken(d, _) => d !in w.deployments || HeldByOther(w.deployments[d], rc.scenario)
             case DeployImageToken(d, _, _, _) => d !in w.deployments || HeldByOther(w.deployments[d], rc.scenario)
             case WorkloadToken(n) => n !in w.jobs || !Ours(w.jobs[n].scenario, rc)
             case ChaosMeshToken(kind, n) =>
               ChaosKey(kind, n) !in w.chaos || !Ours(w.chaos[ChaosKey(kind, n)].scenario, rc)
             case DBExecToken(_, _, revert) => revert == []
    ensures RevertEffect(w, rc, t) == Effect(w, Done)
  {
  }

  /** DeployImage is done after at most two undisturbed calls, with the good image live wherever
      the bad one was; its token never names the same image twice. */
  lemma DeployImageRevertsInTwo(w: World, rc: RunContext, t: Token)
    requires t.DeployImageToken? && t.goodImage != t.badImage
    ensures var once := RevertEffect(w, rc, t);
            var twice := RevertEffect(once.world, rc, t);
            && twice == Effect(once.world, Done)
            && (t.name in w.deployments && !HeldByOther(w.deployments[t.name], rc.scenario) ==>
                  RolledBack(w.deployments[t.name], once.world.deployments[t.name], t))
  {
  }

  /** The container shows the good image if it showed the bad one, its marks are gone, and nothing else
      has changed. */
  predicate RolledBack(before: Deployment, after: Deployment, t: Token)
    requires t.DeployImageToken?
  {
    && after.heldBy == "" && after.knownGood == before.knownGood - {t.container}
    && after.replicas == before.replicas && (after.scenario.None? || after == before)
    && |after.containers| == |before.containers|
    && forall i | 0 <= i < |before.containers| ::
         after.containers[i] ==
           if i == ContainerIndex(before.containers, t.container) && before.containers[i].image == t.badImage
           then before.containers[i].(image := t.goodImage) else before.containers[i]
  }
}
