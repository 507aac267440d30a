/** The operator as a protocol: every label is one atomic API write of the operator, one step of a
    user, or one step of the cluster. What the operator knows is in its local variables; what it
    may write is stated here in terms of what is durable, so a crash is just the end of a pass. */
module Protocol {
  import opened Prelude
  import opened Names
  import opened Api
  import opened Actions
  import opened Helpers

  /** What is fixed for a whole run of the system.
      freshReads: the operator reads its own writes and the restoration hypotheses hold (disjoint
      targets, frozen type and workload name of live actions, no force-release); otherwise the
      operator may decide on arbitrarily stale snapshots and users may edit anything.
      quiet: scenarios no user writes to.
      dotless: no scenario name holds a '.', so that leak keys are told apart.
      digest: the hash prefix of a run ID.
      domain: which scenario may target a Deployment; original: those Deployments before any run. */
  datatype Env = Env(
    freshReads: bool,
    quiet: set<string>,
    dotless: bool,
    digest: string -> string,
    domain: map<string, string>,
    original: map<string, Deployment>)

  ghost predicate EnvOK(env: Env) {
    && (forall runID: string :: IsDigest(env.digest(runID)))
    && env.domain.Keys <= env.original.Keys
  }

  /** Why the operator writes a status: record a token, drop one, start or finish a run, or only
      phases, counters and conditions. */
  datatype Why =
    | Record(action: Action, rc: RunContext)
    | Touch
    | Drop(name: string)
    | Start(desired: Desired, at: Time)
    | Finish(entry: RunHistoryEntry)

  datatype Label =
    // the operator, on behalf of one scenario
    | PutStatus(s: string, why: Why, status: Status)
    | CallEnsure(s: string, action: Action, token: Token, rc: RunContext, settled: bool)
    | CallRevert(s: string, token: Token, rc: RunContext)
    | AddFinalizer(s: string)
    | DropFinalizer(s: string, stamp: string)
    | DisableExpired(s: string)
    | Leak(s: string, entries: map<string, Token>)
    // users
    | UserToggle(s: string, enabled: bool, trigger: Option<TriggerSpec>, duration: Option<Duration>)
    | UserEdit(s: string, actions: seq<Action>)
    | UserForceRelease(s: string)
    | UserDelete(s: string)
    | UserCreate(s: string, spec: Spec)
    // the cluster, and the startup sweeper
    | JobFinishes(job: string, ok: bool)
    | JobGone(job: string)
    | ChaosGone(key: ChaosKey)
    | DeploymentGone(deployment: string)
    | OutsideJob(job: string)
    | Tick(now: Time)
    | SweepJob(job: string)
    | SweepDeployment(deployment: string)

  // ---------- status writes ----------

  predicate SameTokens(a: seq<ActiveAction>, b: seq<ActiveAction>) {
    && |a| == |b|
    && forall i | 0 <= i < |a| :: a[i].name == b[i].name && a[i].atype == b[i].atype && a[i].token == b[i].token
  }

  predicate SameBooks(a: Status, b: Status) {
    a.currentRun == b.currentRun && a.lastCompletedRunID == b.lastCompletedRunID && a.history == b.history
  }

  /** The list without the first action of that name. */
  function Without(list: seq<ActiveAction>, name: string): seq<ActiveAction> {
    var i := FindActiveAction(list, name);
    if i < 0 then list else list[..i] + list[i + 1..]
  }

  /** What a status write may do to the tokens, whatever version it lands on. */
  ghost predicate WeakStatus(why: Why, st: Status, st': Status) {
    match why
    case Record(action, _) =>
      if FindActiveAction(st.activeActions, action.name) >= 0 then st'.activeActions == st.activeActions
      else
        && |st'.activeActions| == |st.activeActions| + 1
        && st'.activeActions[..|st.activeActions|] == st.activeActions
        && st'.activeActions[|st.activeActions|].name == action.name
    case Drop(name) => SameTokens(Without(st.activeActions, name), st'.activeActions)
    case _ => SameTokens(st.activeActions, st'.activeActions)
  }

  function RunLength(run: CurrentRun): Duration {
    if run.expiresAt.Some? then run.expiresAt.value - run.startedAt else 0
  }

  /** A bounded run that lasts: one that truncation has left no length is over before it is driven. */
  predicate Lasting(run: CurrentRun) {
    run.expiresAt.Some? ==> RunLength(run) > 0
  }

  function RunContextOf(env: Env, s: string, run: Option<CurrentRun>): RunContext {
    if run.Some? then RunContext(s, run.value.id, RunLength(run.value), env.digest(run.value.id))
    else RunContext(s, "", 0, env.digest(""))
  }

  /** The token is what Plan returned, and the Deployment it describes, if it is still there, has
      not moved since. */
  ghost predicate PlanAgrees(w: World, rc: RunContext, a: Action, t: Token) {
    && a.atype == TokenType(t)
    && match t
       case ScaleToken(d, prev) =>
         && a.scale.Some? && d == a.scale.value.target
         && (d in w.deployments ==> prev == Replicas(w.deployments[d]))
       case DeployImageToken(d, c, good, bad) =>
         && a.deployImage.Some? && d == a.deployImage.value.target
         && c == a.deployImage.value.container && bad == a.deployImage.value.image && good != bad
         && (d in w.deployments ==>
               && ContainerIndex(w.deployments[d].containers, c) >= 0
               && good == GoodImage(w.deployments[d], a.deployImage.value))
       case WorkloadToken(n) => a.workload.Some? && n == a.workload.value.name
       case ChaosMeshToken(kind, n) =>
         a.chaosMesh.Some? && kind == a.chaosMesh.value.kind && n == ChaosName(a.chaosMesh.value, rc, a.name)
       case DBExecToken(ensure, revert, statements) =>
         && a.dbExec.Some? && statements == a.dbExec.value.revert
         && ensure == ExecEnsureName(a.dbExec.value.name, rc.digest)
         && revert == ExecRevertName(a.dbExec.value.name, rc.digest)
  }

  lemma PlanIsFaithful(w: World, rc: RunContext, a: Action)
    requires Plan(w, rc, a).Ok?
    ensures PlanAgrees(w, rc, a, Plan(w, rc, a).value)
  {
  }

  /** Nothing of the token's injection is left. For exec Jobs "done" was observed, which says
      nothing durable. */
  ghost predicate Undone(w: World, s: string, t: Token) {
    match t
    case ScaleToken(d, prev) =>
      d !in w.deployments || HeldByOther(w.deployments[d], s) ||
      (w.deployments[d].replicas == Some(prev) && w.deployments[d].heldBy == "")
    case DeployImageToken(d, c, good, bad) =>
      d !in w.deployments || HeldByOther(w.deployments[d], s) ||
      (var dep := w.deployments[d];
       && dep.heldBy == "" && c !in dep.knownGood
       && (ContainerIndex(dep.containers, c) >= 0 ==> ImageOf(dep.containers, c) != bad))
    case WorkloadToken(n) => n !in w.jobs || w.jobs[n].scenario != Some(s)
    case ChaosMeshToken(kind, n) => ChaosKey(kind, n) !in w.chaos || w.chaos[ChaosKey(kind, n)].scenario != Some(s)
    case DBExecToken(_, _, _) => true
  }

  lemma RevertDoneMeansUndone(w: World, rc: RunContext, t: Token)
    requires RevertEffect(w, rc, t).outcome == Done
    ensures Undone(RevertEffect(w, rc, t).world, rc.scenario, t)
  {
  }

  /** The history entry of a run that has ended by now: completed if it had expired, else reverted. */
  predicate EntryOf(run: CurrentRun, entry: RunHistoryEntry, now: Time) {
    && entry.id == run.id && entry.trigger == run.trigger && entry.startedAt == run.startedAt
    && run.startedAt <= entry.endedAt <= now
    && entry.result ==
       if run.expiresAt.Some? && run.expiresAt.value <= entry.endedAt then Completed else RunResult.Reverted
  }

  /** What a status write does when the operator reads fresh. */
  ghost predicate StrongStatus(env: Env, w: World, s: string, why: Why, st: Status, st': Status)
    requires s in w.mjs
  {
    var spec := w.mjs[s].spec;
    match why
    case Record(action, rc) =>
      && st.currentRun.Some? && rc == RunContextOf(env, s, st.currentRun) && SameBooks(st, st')
      && action in spec.actions && ValidActions(spec.actions)
      && FindActiveAction(st.activeActions, action.name) < 0
      && st.currentRun.value.startedAt + (if action.delay.Some? then action.delay.value else 0) <= w.clock
      && |st'.activeActions| == |st.activeActions| + 1
      && var aa := st'.activeActions[|st.activeActions|];
         && aa == ActiveAction(action.name, action.atype, Recorded, None, 0, None, aa.token)
         && PlanAgrees(w, rc, action, aa.token)
    case Touch => SameBooks(st, st')
    case Drop(name) =>
      && SameBooks(st, st') && MayDrain(w, s)
      && st.activeActions != [] && name == st.activeActions[|st.activeActions| - 1].name
      && Undone(w, s, st.activeActions[|st.activeActions| - 1].token)
    case Start(desired, at) =>
      && st.currentRun.None? && st.activeActions == []
      && ValidActions(spec.actions) && (s in env.quiet ==> !w.mjs[s].deleting)
      && desired.Desired? && at <= w.clock && st'.currentRun == Some(NewRun(desired, at))
      && st'.lastCompletedRunID == st.lastCompletedRunID && st'.history == st.history
      && (st.history != [] ==> st.history[|st.history| - 1].endedAt <= at)
      && (s in env.quiet ==> desired == DesiredRun(spec, st, desired.runID))
    case Finish(entry) =>
      && MayDrain(w, s)
      && st.currentRun.Some? && st.activeActions == [] && st'.currentRun.None?
      && EntryOf(st.currentRun.value, entry, w.clock)
      && st'.lastCompletedRunID == entry.id && st'.history == AppendHistory(st.history, entry)
      && (s in env.quiet && entry.trigger == Enabled ==> !spec.enabled)
  }

  // ---------- leaked tokens ----------

  function LeakKey(s: string, action: string, stamp: string): string {
    s + "." + action + "." + stamp
  }

  ghost predicate Leaked(w: World, s: string, list: seq<ActiveAction>, stamp: string) {
    forall i | 0 <= i < |list| ::
      var key := LeakKey(s, list[i].name, stamp);
      key in w.leaked && w.leaked[key] == list[i].token
  }

  // ---------- user edits under the restoration hypotheses ----------

  function OriginalImage(env: Env, d: string, c: string): string {
    if d in env.original then ImageOf(env.original[d].containers, c) else ""
  }

  predicate OwnTarget(env: Env, s: string, d: string) {
    d in env.domain && env.domain[d] == s
  }

  predicate ActionsOK(env: Env, s: string, actions: seq<Action>) {
    forall i | 0 <= i < |actions| ::
      var a := actions[i];
      && (a.scale.Some? ==> OwnTarget(env, s, a.scale.value.target))
      && (a.deployImage.Some? ==>
            var da := a.deployImage.value;
            && OwnTarget(env, s, da.target)
            && (da.knownGoodImage == "" || da.knownGoodImage == OriginalImage(env, da.target, da.container)))
  }

  /** Actions with a live token keep their type and their workload name. */
  predicate Frozen(actions: seq<Action>, active: seq<ActiveAction>) {
    forall i, j | 0 <= i < |actions| && 0 <= j < |active| && actions[i].name == active[j].name ::
      && actions[i].atype == active[j].atype
      && (actions[i].workload.Some? && active[j].token.WorkloadToken? ==>
            actions[i].workload.value.name == active[j].token.name)
  }

  /** Kubernetes names hold no '/'. */
  predicate NameOK(s: string) {
    s != "" && '/' !in s
  }

  predicate ScenarioName(env: Env, s: string) {
    NameOK(s) && (env.dotless ==> '.' !in s)
  }

  /** A pass drains a scenario only if its spec validates or the resource is being deleted. */
  predicate MayDrain(w: World, s: string) {
    s in w.mjs ==> ValidActions(w.mjs[s].spec.actions) || w.mjs[s].deleting
  }

  // ---------- labels ----------

  predicate IdleOwner(w: World, owner: string) {
    owner !in w.mjs ||
    (var st := w.mjs[owner].status;
     (st.phase == NoPhase || st.phase == Idle) && st.activeActions == [] && st.currentRun.None?)
  }

  ghost predicate Allowed(env: Env, w: World, l: Label) {
    match l
    case PutStatus(s, why, st) =>
      && s in w.mjs && WeakStatus(why, w.mjs[s].status, st)
      && (why.Record? || why.Start? ==> w.mjs[s].finalizer)
      && (env.freshReads ==> StrongStatus(env, w, s, why, w.mjs[s].status, st))
    case CallEnsure(s, action, token, rc, _) =>
      && rc.scenario == s && NameOK(s)
      && (env.freshReads ==>
            && s in w.mjs && action in w.mjs[s].spec.actions
            && w.mjs[s].status.currentRun.Some? && rc == RunContextOf(env, s, w.mjs[s].status.currentRun)
            && Lasting(w.mjs[s].status.currentRun.value)
            && var i := FindActiveAction(w.mjs[s].status.activeActions, action.name);
               i >= 0 && w.mjs[s].status.activeActions[i].token == token)
    case CallRevert(s, token, rc) =>
      && rc.scenario == s && NameOK(s)
      && (env.freshReads ==>
            && s in w.mjs && w.mjs[s].status.activeActions != [] && MayDrain(w, s)
            && rc == RunContextOf(env, s, w.mjs[s].status.currentRun)
            && var list := w.mjs[s].status.activeActions; list[|list| - 1].token == token)
    case AddFinalizer(s) => s in w.mjs && !w.mjs[s].finalizer && !w.mjs[s].deleting
    case DropFinalizer(s, stamp) =>
      && s in w.mjs && w.mjs[s].finalizer && w.mjs[s].deleting
      && (w.mjs[s].status.activeActions == [] ||
          (w.mjs[s].forceRelease && (env.dotless ==> Leaked(w, s, w.mjs[s].status.activeActions, stamp))))
    case DisableExpired(s) =>
      && s in w.mjs
      && (env.freshReads ==>
            var run := w.mjs[s].status.currentRun;
            run.Some? && run.value.trigger == Enabled && Expired(run.value, w.clock))
    case Leak(s, entries) => ScenarioName(env, s) && forall k | k in entries :: s + "." <= k
    case UserToggle(s, _, _, _) => s in w.mjs && s !in env.quiet
    case UserEdit(s, actions) =>
      && s in w.mjs && s !in env.quiet
      && (env.freshReads ==> ActionsOK(env, s, actions) && Frozen(actions, w.mjs[s].status.activeActions))
    case UserForceRelease(s) => s in w.mjs && s !in env.quiet && !env.freshReads
    case UserDelete(s) => s in w.mjs && s !in env.quiet
    case UserCreate(s, spec) => s !in w.mjs && ScenarioName(env, s) && s !in env.quiet &&
      (env.freshReads ==> ActionsOK(env, s, spec.actions))
    case JobFinishes(n, _) => n in w.jobs && w.jobs[n].state == Running
    case JobGone(_) => true
    case ChaosGone(_) => true
    case DeploymentGone(_) => true
    case OutsideJob(n) => n !in w.jobs
    case Tick(now) => w.clock <= now
    case SweepJob(n) => n in w.jobs && w.jobs[n].scenario.Some? && IdleOwner(w, w.jobs[n].scenario.value)
    case SweepDeployment(d) =>
      d in w.deployments && w.deployments[d].scenario.Some? && IdleOwner(w, w.deployments[d].scenario.value)
  }

  const EmptyStatus := Status(NoPhase, None, [], "", [], Unset, false)

  /** Every write of a resource gets the next revision as its version. */
  function PutMJ(w: World, s: string, mj: MaintenanceJob): World {
    w.(mjs := w.mjs[s := mj.(version := w.revision + 1)], revision := w.revision + 1)
  }

  /** Remembers the run just started, under the revision of its start. */
  function StartRun(w: World, s: string, desired: Desired): World {
    w.(started := w.started[w.revision := StartedRun(s, if desired.Desired? then desired.runID else "")])
  }

  function StatusWritten(w: World, s: string, why: Why, st: Status): World
    requires s in w.mjs
  {
    var mj := w.mjs[s].(status := st);
    match why
    case Start(desired, _) => StartRun(PutMJ(w, s, mj.(era := w.revision + 1)), s, desired)
    case Finish(entry) => PutMJ(w, s, mj.(audit := mj.audit + [entry]))
    case _ => PutMJ(w, s, mj)
  }

  function DropMJ(w: World, s: string): World {
    w.(mjs := w.mjs - {s}, revision := w.revision + 1)
  }

  /** The scenario whose MaintenanceJob a label writes. */
  function Subject(l: Label): Option<string> {
    match l
    case PutStatus(s, _, _) => Some(s)
    case AddFinalizer(s) => Some(s)
    case DropFinalizer(s, _) => Some(s)
    case DisableExpired(s) => Some(s)
    case UserToggle(s, _, _, _) => Some(s)
    case UserEdit(s, _) => Some(s)
    case UserForceRelease(s) => Some(s)
    case UserDelete(s) => Some(s)
    case UserCreate(s, _) => Some(s)
    case _ => None
  }

  /** The resource as a label other than a status write or a removal leaves it. */
  function Edited(mj: MaintenanceJob, l: Label): MaintenanceJob {
    match l
    case AddFinalizer(_) => mj.(finalizer := true)
    case DisableExpired(_) => mj.(spec := mj.spec.(enabled := false))
    case UserToggle(_, enabled, trigger, duration) => mj.(spec := Spec(enabled, trigger, duration, mj.spec.actions))
    case UserEdit(_, actions) => mj.(spec := mj.spec.(actions := actions))
    case UserForceRelease(_) => mj.(forceRelease := true)
    case UserDelete(_) => mj.(deleting := true)
    case _ => mj
  }

  function ResourceWritten(w: World, s: string, l: Label): World {
    if l.UserCreate? then PutMJ(w, s, MaintenanceJob(0, l.spec, EmptyStatus, false, false, false, 0, []))
    else if s !in w.mjs then w
    else if l.PutStatus? then StatusWritten(w, s, l.why, l.status)
    else if l.DropFinalizer? || (l.UserDelete? && !w.mjs[s].finalizer) then DropMJ(w, s)
    else PutMJ(w, s, Edited(w.mjs[s], l))
  }

  function Next(w: World, l: Label): World {
    match l
    case CallEnsure(s, action, token, rc, settled) => EnsureEffect(w, rc, action, token, settled).world
    case CallRevert(s, token, rc) => RevertEffect(w, rc, token).world
    case Leak(_, entries) => w.(leaked := w.leaked + entries)
    case JobFinishes(n, ok) =>
      if n !in w.jobs then w else PutJob(w, n, w.jobs[n].(state := if ok then Succeeded else JobFailed))
    case JobGone(n) => w.(jobs := w.jobs - {n})
    case ChaosGone(k) => w.(chaos := w.chaos - {k})
    case DeploymentGone(d) => w.(deployments := w.deployments - {d})
    case OutsideJob(n) => PutJob(w, n, Job(None, Outside, Running, false, w.clock, 0))
    case Tick(now) => w.(clock := now)
    case SweepJob(n) => if n !in w.jobs then w else PutJob(w, n, w.jobs[n].(deleting := true))
    case SweepDeployment(d) => w.(deployments := w.deployments - {d})
    case _ => ResourceWritten(w, Subject(l).value, l)
  }

  // ---------- runs ----------

  function After(w: World, ls: seq<Label>): World {
    if ls == [] then w else Next(After(w, ls[..|ls| - 1]), ls[|ls| - 1])
  }

  ghost predicate Legal(env: Env, w: World, ls: seq<Label>) {
    ls == [] || (Legal(env, w, ls[..|ls| - 1]) && Allowed(env, After(w, ls[..|ls| - 1]), ls[|ls| - 1]))
  }

  lemma LegalSnoc(env: Env, w: World, ls: seq<Label>, l: Label)
    requires Legal(env, w, ls) && Allowed(env, After(w, ls), l)
    ensures Legal(env, w, ls + [l]) && After(w, ls + [l]) == Next(After(w, ls), l)
  {
    assert (ls + [l])[..|ls|] == ls;
  }

  /** A crash leaves a prefix of the run: that is a run too. */
  lemma {:induction false} LegalPrefix(env: Env, w: World, ls: seq<Label>, n: nat)
    requires Legal(env, w, ls) && n <= |ls|
    ensures Legal(env, w, ls[..n])
  {
    if n < |ls| {
      LegalPrefix(env, w, ls[..|ls| - 1], n);
      assert ls[..|ls| - 1][..n] == ls[..n];
    } else {
      assert ls[..n] == ls;
    }
  }
}
