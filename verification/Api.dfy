/** Optional values, for the source's pointers and missing map entries. */
module Prelude {
  datatype Option<+T> = None | Some(value: T)

  datatype Result<+T, +E> = Ok(value: T) | Err(error: E)
}

/** The objects the operator reads and writes, all of one namespace. Times and durations are
    nanoseconds. The run's JSON revert tokens are kept as values. */
module Api {
  import opened Prelude

  type Duration = int
  type Time = int

  const SECOND: Duration := 1_000_000_000
  const MINUTE: Duration := 60 * SECOND
  const HOUR: Duration := 60 * MINUTE

  // ---------- the MaintenanceJob resource ----------

  datatype ActionType =
    | WorkloadType
    | ScaleType
    | DeployImageType
    | ChaosMeshType
    | DBExecType
    | OtherType(tag: string)

  datatype WorkloadAction = WorkloadAction(name: string, deadlineMargin: Option<Duration>)
  datatype ScaleAction = ScaleAction(target: string, replicas: int)
  datatype DeployImageAction = DeployImageAction(target: string, container: string, image: string,
                                                 knownGoodImage: string)
  datatype ChaosMeshAction = ChaosMeshAction(kind: string, name: string, ownDuration: bool)
  datatype DBExecAction = DBExecAction(name: string, ensure: seq<string>, revert: seq<string>)

  datatype Action = Action(
    name: string,
    atype: ActionType,
    delay: Option<Duration>,
    workload: Option<WorkloadAction>,
    scale: Option<ScaleAction>,
    deployImage: Option<DeployImageAction>,
    chaosMesh: Option<ChaosMeshAction>,
    dbExec: Option<DBExecAction>)

  datatype TriggerSpec = TriggerSpec(runID: string, duration: Option<Duration>)
  datatype Spec = Spec(enabled: bool, trigger: Option<TriggerSpec>, duration: Option<Duration>, actions: seq<Action>)

  datatype RunTrigger = Manual | Enabled
  datatype CurrentRun = CurrentRun(id: string, trigger: RunTrigger, startedAt: Time, expiresAt: Option<Time>)

  datatype Token =
    | ScaleToken(name: string, previousReplicas: int)
    | DeployImageToken(name: string, container: string, goodImage: string, badImage: string)
    | WorkloadToken(name: string)
    | ChaosMeshToken(kind: string, name: string)
    | DBExecToken(ensureName: string, revertName: string, revert: seq<string>)

  datatype ActionPhase = Recorded | Applied | Undoing
  datatype ActiveAction = ActiveAction(
    name: string,
    atype: ActionType,
    phase: ActionPhase,
    appliedAt: Option<Time>,
    attempts: int,
    lastError: Option<Problem>,
    token: Token)

  datatype RunResult = Completed | Reverted | Failed
  datatype RunHistoryEntry = RunHistoryEntry(
    id: string, trigger: RunTrigger, startedAt: Time, endedAt: Time, result: RunResult)

  datatype Phase = NoPhase | Idle | Activating | Active | Reverting | Degraded
  datatype Readiness = Unset | NotReady(reason: string) | Ready(reason: string)

  datatype Status = Status(
    phase: Phase,
    currentRun: Option<CurrentRun>,
    activeActions: seq<ActiveAction>,
    lastCompletedRunID: string,
    history: seq<RunHistoryEntry>,
    ready: Readiness,
    revertFailed: bool)

  /** `version` is the resource version. Two fields are not part of the resource and only remember:
      `audit` every run the operator ever finished for this object, so that the capped history can be
      judged, and `era` the revision at which its latest run was started, which no other run shares. */
  datatype MaintenanceJob = MaintenanceJob(
    version: nat,
    spec: Spec,
    status: Status,
    finalizer: bool,
    deleting: bool,
    forceRelease: bool,
    era: nat,
    audit: seq<RunHistoryEntry>)

  // ---------- the objects that runs touch ----------

  datatype Container = Container(name: string, image: string)

  /** heldBy is "" when the held-by annotation is missing; knownGood holds the known-good
      annotations by container; scenario is the scenario label. */
  datatype Deployment = Deployment(
    replicas: Option<int>,
    containers: seq<Container>,
    heldBy: string,
    knownGood: map<string, string>,
    scenario: Option<string>)

  datatype ExecPhase = EnsurePhase | RevertPhase
  /** Who made a Job: a Workload action with some deadline margin, a DBExec action in some run (known
      by its ID and its era) for one of its phases, or nobody of ours. */
  datatype Origin = Load(margin: Duration) | Exec(runID: string, era: nat, phase: ExecPhase) | Outside
  datatype JobState = Running | Succeeded | JobFailed
  datatype Job = Job(
    scenario: Option<string>, origin: Origin, state: JobState, deleting: bool,
    createdAt: Time, deadlineSeconds: int)

  datatype ChaosKey = ChaosKey(kind: string, name: string)
  /** lifetime is the operator's dead-man duration, None when the action brought its own. */
  datatype Chaos = Chaos(scenario: Option<string>, deleting: bool, createdAt: Time, lifetime: Option<Duration>)

  /** A run that was once started, whatever became of it and of its scenario. */
  datatype StartedRun = StartedRun(scenario: string, id: string)

  /** Everything durable: what is left after any crash of the operator. `started` only remembers: the
      runs ever started, by era. */
  datatype World = World(
    mjs: map<string, MaintenanceJob>,
    deployments: map<string, Deployment>,
    jobs: map<string, Job>,
    chaos: map<ChaosKey, Chaos>,
    leaked: map<string, Token>,
    clock: Time,
    revision: nat,
    started: map<nat, StartedRun>)

  // ---------- results of calls ----------

  datatype Problem =
    | ApiFailure | Conflict | MissingConfig | InvalidToken | TargetMissing | HeldByAnother | NoSuchContainer
    | NoKnownGoodImage | NameConflict | ExecJobFailed | UnknownAction | IndexOutOfRange

  datatype Outcome = Done | Wait(after: Duration) | Error(problem: Problem)

  /** Run-scoped facts handed to an action; digest is the hash prefix of the run ID. */
  datatype RunContext = RunContext(scenario: string, runID: string, runDuration: Duration, digest: string)

  // ---------- lookups ----------

  function FindActiveAction(list: seq<ActiveAction>, name: string): (idx: int)
    ensures -1 <= idx < |list|
    ensures idx >= 0 ==> list[idx].name == name && forall j | 0 <= j < idx :: list[j].name != name
    ensures idx < 0 ==> forall j | 0 <= j < |list| :: list[j].name != name
  {
    if list == [] then -1
    else if list[0].name == name then 0
    else
      var rest := FindActiveAction(list[1..], name);
      if rest < 0 then -1 else rest + 1
  }

  function ContainerIndex(cs: seq<Container>, name: string): (idx: int)
    ensures -1 <= idx < |cs|
    ensures idx >= 0 ==> cs[idx].name == name && forall j | 0 <= j < idx :: cs[j].name != name
    ensures idx < 0 ==> forall j | 0 <= j < |cs| :: cs[j].name != name
  {
    if cs == [] then -1
    else if cs[0].name == name then 0
    else
      var rest := ContainerIndex(cs[1..], name);
      if rest < 0 then -1 else rest + 1
  }

  function ImageOf(cs: seq<Container>, name: string): string {
    var i := ContainerIndex(cs, name);
    if i < 0 then "" else cs[i].image
  }

  /** A Deployment without a replica count runs one. */
  function Replicas(d: Deployment): int {
    if d.replicas.Some? then d.replicas.value else 1
  }

  function Lookup(m: map<string, string>, k: string): string {
    if k in m then m[k] else ""
  }
}
