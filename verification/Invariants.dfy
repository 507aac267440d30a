/** What every reachable cluster satisfies, and why each label keeps it. */
module Invariants {
  import opened Prelude
  import opened Names
  import opened Api
  import opened Actions
  import opened Helpers
  import opened Protocol
  import opened UndoLog

  function TokensOf(list: seq<ActiveAction>): (ts: seq<Token>)
    ensures |ts| == |list| && forall i | 0 <= i < |ts| :: ts[i] == list[i].token
  {
    seq(|list|, i requires 0 <= i < |list| => list[i].token)
  }

  /** The live tokens of a scenario; none when it does not exist. */
  function Tokens(w: World, s: string): seq<Token> {
    if s in w.mjs then TokensOf(w.mjs[s].status.activeActions) else []
  }

  /** The run in flight of a scenario. */
  function RunOf(w: World, s: string): Option<CurrentRun> {
    if s in w.mjs then w.mjs[s].status.currentRun else None
  }

  // ---------- at any time, even on stale snapshots ----------

  predicate DistinctNames(list: seq<ActiveAction>) {
    forall i, j | 0 <= i < j < |list| :: list[i].name != list[j].name
  }

  ghost predicate WeakMJ(w: World, s: string)
    requires s in w.mjs
  {
    var mj := w.mjs[s];
    && NameOK(s)
    && DistinctNames(mj.status.activeActions)
    && (mj.status.activeActions != [] ==> mj.finalizer)
    && mj.version <= w.revision
  }

  ghost predicate WeakInv(w: World) {
    forall s | s in w.mjs :: WeakMJ(w, s)
  }

  // ---------- under fresh reads ----------

  predicate EnsureNamed(name: string, digest: string) {
    EndsWith(name, digest)
  }

  predicate RevertNamed(name: string, digest: string) {
    EndsWith(name, digest + EXEC_REVERT_SUFFIX)
  }

  predicate TokenOK(env: Env, s: string, run: CurrentRun, aa: ActiveAction) {
    && aa.atype == TokenType(aa.token)
    && match aa.token
       case ScaleToken(d, _) => OwnTarget(env, s, d)
       case DeployImageToken(d, _, good, bad) => OwnTarget(env, s, d) && good != bad
       case DBExecToken(ensure, revert, _) =>
         EnsureNamed(ensure, env.digest(run.id)) && RevertNamed(revert, env.digest(run.id))
       case _ => true
  }

  /** Tokens exist only during a run and all belong to it; the history is the tail of the audit. */
  ghost predicate StatusOK(env: Env, s: string, mj: MaintenanceJob) {
    var st := mj.status;
    && ActionsOK(env, s, mj.spec.actions) && !mj.forceRelease
    && Frozen(mj.spec.actions, st.activeActions)
    && (st.activeActions != [] ==> st.currentRun.Some?)
    && (st.currentRun.Some? ==> mj.finalizer)
    && (st.currentRun.Some? ==> forall i | 0 <= i < |st.activeActions| ::
          TokenOK(env, s, st.currentRun.value, st.activeActions[i]))
    && st.history == LastEntries(mj.audit)
    && st.lastCompletedRunID == if mj.audit == [] then "" else mj.audit[|mj.audit| - 1].id
  }

  ghost predicate DeploymentOK(env: Env, w: World, d: string)
    requires EnvOK(env) && d in w.deployments && d in env.domain
  {
    var s := env.domain[d];
    DepInv(env.original[d], w.deployments[d], Tokens(w, s), s, d)
  }

  /** A Workload Job is covered by a live token of its scenario that names it, and was made during the
      run in flight, with a timer of its length. */
  ghost predicate LoadOK(w: World, s: string, n: string, job: Job, margin: Duration) {
    && WorkloadToken(n) in Tokens(w, s) && RunOf(w, s).Some? && Lasting(RunOf(w, s).value)
    && RunOf(w, s).value.startedAt <= job.createdAt
    && job.deadlineSeconds == DeadlineSeconds(margin, RunLength(RunOf(w, s).value))
  }

  ghost predicate WasStarted(w: World, s: Option<string>, runID: string, era: nat) {
    s.Some? && era in w.started && w.started[era] == StartedRun(s.value, runID)
  }

  /** The name of an exec Job tells its phase and the digest of its run, a run once started. */
  ghost predicate JobOK(env: Env, w: World, n: string)
    requires n in w.jobs
  {
    var job := w.jobs[n];
    match job.origin
    case Load(margin) => job.scenario.Some? ==> LoadOK(w, job.scenario.value, n, job, margin)
    case Exec(runID, era, EnsurePhase) =>
      EnsureNamed(n, env.digest(runID)) && WasStarted(w, job.scenario, runID, era)
    case Exec(runID, era, RevertPhase) =>
      RevertNamed(n, env.digest(runID)) && WasStarted(w, job.scenario, runID, era)
    case Outside => job.scenario.None?
  }

  ghost predicate ChaosOK(w: World, k: ChaosKey)
    requires k in w.chaos
  {
    var obj := w.chaos[k];
    obj.scenario.Some? ==>
      var s := obj.scenario.value;
      && ChaosMeshToken(k.kind, k.name) in Tokens(w, s) && RunOf(w, s).Some? && Lasting(RunOf(w, s).value)
      && RunOf(w, s).value.startedAt <= obj.createdAt
      && (obj.lifetime.Some? ==> obj.lifetime.value == ChaosDuration(RunLength(RunOf(w, s).value)))
  }

  /** No run ended before it began, and none began before the one before it had ended, give or take the
      second that truncation moves a start back. */
  predicate Chronicle(all: seq<RunHistoryEntry>) {
    && (forall i | 0 <= i < |all| :: all[i].startedAt <= all[i].endedAt)
    && (forall i | 0 < i < |all| :: all[i - 1].endedAt < all[i].startedAt + SECOND)
  }

  /** What was finished is over; what is in flight has begun since. */
  predicate TimesOK(all: seq<RunHistoryEntry>, run: Option<CurrentRun>, now: Time) {
    && Chronicle(all) && (forall i | 0 <= i < |all| :: all[i].endedAt <= now)
    && (all != [] && run.Some? ==> all[|all| - 1].endedAt < run.value.startedAt + SECOND)
  }

  /** The run in flight has begun, and is remembered. */
  ghost predicate RunOK(w: World, s: string)
    requires s in w.mjs
  {
    var run := w.mjs[s].status.currentRun;
    && TimesOK(w.mjs[s].audit, run, w.clock)
    && (run.Some? ==>
          && WholeSeconds(run.value) && run.value.startedAt <= w.clock
          && WasStarted(w, Some(s), run.value.id, w.mjs[s].era))
  }

  ghost predicate BooksInv(env: Env, w: World) {
    forall s | s in w.mjs :: StatusOK(env, s, w.mjs[s])
  }

  ghost predicate TargetsInv(env: Env, w: World)
    requires EnvOK(env)
  {
    forall d | d in w.deployments && d in env.domain :: DeploymentOK(env, w, d)
  }

  ghost predicate JobsInv(env: Env, w: World) {
    forall n | n in w.jobs :: JobOK(env, w, n)
  }

  ghost predicate ChaosInv(w: World) {
    forall k | k in w.chaos :: ChaosOK(w, k)
  }

  ghost predicate RunsInv(w: World) {
    (forall s | s in w.mjs :: RunOK(w, s)) && (forall e | e in w.started :: e <= w.revision)
  }

  ghost predicate StrongInv(env: Env, w: World)
    requires EnvOK(env)
  {
    BooksInv(env, w) && TargetsInv(env, w) && JobsInv(env, w) && ChaosInv(w) && RunsInv(w)
  }

  ghost predicate Inv(env: Env, w: World)
    requires EnvOK(env)
  {
    WeakInv(w) && (env.freshReads ==> StrongInv(env, w))
  }

  // ---------- tokens under each label ----------

  /** A run stays while it has tokens, and what was started stays known. */
  ghost predicate RunsKept(w: World, w': World) {
    && (forall e | e in w.started :: e in w'.started && w'.started[e] == w.started[e])
    && forall s | Tokens(w, s) != [] :: RunOf(w', s) == RunOf(w, s)
  }

  /** Objects that remain are still named by the tokens that named them. */
  ghost predicate CoverKept(w: World, w': World) {
    && (forall n | n in w.jobs && n in w'.jobs && w.jobs[n].origin.Load? && w.jobs[n].scenario.Some? ::
          WorkloadToken(n) in Tokens(w, w.jobs[n].scenario.value) ==>
            WorkloadToken(n) in Tokens(w', w.jobs[n].scenario.value))
    && (forall k | k in w.chaos && k in w'.chaos && w.chaos[k].scenario.Some? ::
          ChaosMeshToken(k.kind, k.name) in Tokens(w, w.chaos[k].scenario.value) ==>
            ChaosMeshToken(k.kind, k.name) in Tokens(w', w.chaos[k].scenario.value))
  }

  predicate SameJob(a: Job, b: Job) {
    b == a.(deleting := b.deleting, state := b.state)
  }

  lemma JobsKept(env: Env, w: World, w': World)
    requires JobsInv(env, w) && RunsKept(w, w') && CoverKept(w, w')
    requires forall n | n in w'.jobs :: if n in w.jobs then SameJob(w.jobs[n], w'.jobs[n]) else JobOK(env, w', n)
    ensures JobsInv(env, w')
  {
    forall n | n in w'.jobs
      ensures JobOK(env, w', n)
    {
      if n in w.jobs {
        assert JobOK(env, w, n);
      }
    }
  }

  lemma ChaosKept(w: World, w': World)
    requires ChaosInv(w) && RunsKept(w, w') && CoverKept(w, w')
    requires forall k | k in w'.chaos ::
               if k in w.chaos then w'.chaos[k] == w.chaos[k].(deleting := w'.chaos[k].deleting) else ChaosOK(w', k)
    ensures ChaosInv(w')
  {
    forall k | k in w'.chaos
      ensures ChaosOK(w', k)
    {
      if k in w.chaos {
        assert ChaosOK(w, k);
      }
    }
  }

  /** Everything but one MaintenanceJob is as before, and its tokens too. */
  ghost predicate TokensKept(w: World, w': World) {
    && w'.deployments == w.deployments && w'.jobs == w.jobs && w'.chaos == w.chaos
    && forall s :: Tokens(w', s) == Tokens(w, s)
  }

  lemma TokensKeptKeepsObjects(env: Env, w: World, w': World)
    requires EnvOK(env) && StrongInv(env, w) && TokensKept(w, w') && RunsKept(w, w')
    ensures TargetsInv(env, w') && JobsInv(env, w') && ChaosInv(w')
  {
    forall d | d in w'.deployments && d in env.domain
      ensures DeploymentOK(env, w', d)
    {
      assert DeploymentOK(env, w, d);
    }
    JobsKept(env, w, w');
    ChaosKept(w, w');
  }

  lemma SameTokensSameLog(a: seq<ActiveAction>, b: seq<ActiveAction>)
    requires SameTokens(a, b)
    ensures TokensOf(a) == TokensOf(b) && (DistinctNames(a) ==> DistinctNames(b))
  {
  }

  /** Labels that write one MaintenanceJob and no token. */
  predicate WritesNoToken(l: Label) {
    || (l.PutStatus? && (l.why.Touch? || l.why.Start? || l.why.Finish?))
    || l.AddFinalizer? || l.DisableExpired? || l.UserToggle? || l.UserEdit? || l.UserForceRelease?
    || l.UserDelete? || l.UserCreate? || l.DropFinalizer? || l.Leak? || l.Tick?
  }

  lemma EffectsKeepMJs(w: World, l: Label)
    requires l.CallEnsure? || l.CallRevert?
    ensures Next(w, l).mjs == w.mjs && Next(w, l).revision == w.revision
  {
    if l.CallEnsure? {
      EnsureIsConfined(w, l.rc, l.action, l.token, l.settled);
    } else {
      RevertIsConfined(w, l.rc, l.token);
    }
  }

  lemma NoSubjectKeepsMJs(w: World, l: Label)
    requires Subject(l).None?
    ensures Next(w, l).mjs == w.mjs && Next(w, l).revision == w.revision
  {
    if l.CallEnsure? || l.CallRevert? {
      EffectsKeepMJs(w, l);
    }
  }

  /** One resource is written or removed, the others and all objects stay. */
  ghost predicate OnlyMJ(w: World, w': World, s: string) {
    && w' == w.(mjs := w'.mjs, revision := w'.revision, started := w'.started)
    && w'.revision == w.revision + 1
    && forall x | x != s :: (x in w'.mjs <==> x in w.mjs) && (x in w.mjs ==> w'.mjs[x] == w.mjs[x])
  }

  lemma PutShape(w: World, s: string, mj: MaintenanceJob)
    ensures var w' := PutMJ(w, s, mj);
            && OnlyMJ(w, w', s) && s in w'.mjs && w'.mjs[s] == mj.(version := w.revision + 1)
            && w'.started == w.started
  {
  }

  lemma DropShape(w: World, s: string)
    ensures var w' := DropMJ(w, s); OnlyMJ(w, w', s) && s !in w'.mjs && w'.started == w.started
  {
  }

  /** A resource as a status write leaves it. */
  function StatusWrittenMJ(w: World, s: string, why: Why, st: Status): MaintenanceJob
    requires s in w.mjs
  {
    var mj := w.mjs[s];
    mj.(version := w.revision + 1,
        status := st,
        era := if why.Start? then w.revision + 1 else mj.era,
        audit := if why.Finish? then mj.audit + [why.entry] else mj.audit)
  }

  lemma StatusShape(w: World, s: string, why: Why, st: Status)
    requires s in w.mjs
    ensures var w' := StatusWritten(w, s, why, st);
            && OnlyMJ(w, w', s) && s in w'.mjs && w'.mjs[s] == StatusWrittenMJ(w, s, why, st)
            && (!why.Start? ==> w'.started == w.started)
            && (why.Start? ==>
                  w'.started == w.started[w.revision + 1 :=
                                  StartedRun(s, if why.desired.Desired? then why.desired.runID else "")])
  {
    var mj := w.mjs[s].(status := st);
    match why {
      case Start(_, _) => PutShape(w, s, mj.(era := w.revision + 1));
      case Finish(entry) => PutShape(w, s, mj.(audit := mj.audit + [entry]));
      case _ => PutShape(w, s, mj);
    }
  }

  const NewMJ := MaintenanceJob(0, Spec(false, None, None, []), EmptyStatus, false, false, false, 0, [])

  /** What a label that writes the resource of s leaves of it. */
  ghost predicate ResourceShape(w: World, w': World, s: string, l: Label) {
    && (OnlyMJ(w, w', s) || w' == w)
    && (s in w'.mjs ==>
          if l.UserCreate? then w'.mjs[s] == NewMJ.(spec := l.spec, version := w.revision + 1)
          else
            && s in w.mjs
            && w'.mjs[s] ==
               if l.PutStatus? then StatusWrittenMJ(w, s, l.why, l.status)
               else Edited(w.mjs[s], l).(version := w.revision + 1))
    && (s in w.mjs && s !in w'.mjs ==> l.DropFinalizer? || (l.UserDelete? && !w.mjs[s].finalizer))
    && (!(l.PutStatus? && l.why.Start?) ==> w'.started == w.started)
  }

  lemma WrittenShape(w: World, s: string, l: Label)
    ensures ResourceShape(w, ResourceWritten(w, s, l), s, l)
  {
    if l.UserCreate? {
      PutShape(w, s, NewMJ.(spec := l.spec));
    } else if s in w.mjs {
      if l.PutStatus? {
        StatusShape(w, s, l.why, l.status);
      } else if l.DropFinalizer? || (l.UserDelete? && !w.mjs[s].finalizer) {
        DropShape(w, s);
      } else {
        PutShape(w, s, Edited(w.mjs[s], l));
      }
    }
  }

  lemma SubjectShape(w: World, l: Label)
    requires Subject(l).Some?
    ensures ResourceShape(w, Next(w, l), Subject(l).value, l)
  {
    assert Next(w, l) == ResourceWritten(w, Subject(l).value, l);
    WrittenShape(w, Subject(l).value, l);
  }

  /** What the labels that are neither status writes nor removals leave alone. */
  lemma EditedShape(mj: MaintenanceJob, l: Label)
    ensures var mj' := Edited(mj, l);
            && mj'.status == mj.status && mj'.audit == mj.audit && mj'.era == mj.era && mj'.version == mj.version
            && (mj.finalizer ==> mj'.finalizer) && (mj.deleting ==> mj'.deleting)
            && (mj.forceRelease ==> mj'.forceRelease) && (mj'.forceRelease ==> mj.forceRelease || l.UserForceRelease?)
            && (mj'.spec.actions == if l.UserEdit? then l.actions else mj.spec.actions)
  {
  }

  lemma OtherMJsKept(w: World, l: Label)
    ensures forall s | Subject(l) != Some(s) ::
              (s in Next(w, l).mjs <==> s in w.mjs) && (s in w.mjs ==> Next(w, l).mjs[s] == w.mjs[s])
    ensures w.revision <= Next(w, l).revision
  {
    if Subject(l).Some? {
      SubjectShape(w, l);
    } else {
      NoSubjectKeepsMJs(w, l);
    }
  }

  /** Only Leak writes the leak ConfigMap, and only time moves the clock. */
  lemma LeaksAndClock(w: World, l: Label)
    ensures l.Leak? || Next(w, l).leaked == w.leaked
    ensures l.Tick? || Next(w, l).clock == w.clock
  {
    if l.CallEnsure? {
      EnsureIsConfined(w, l.rc, l.action, l.token, l.settled);
    } else if l.CallRevert? {
      RevertIsConfined(w, l.rc, l.token);
    } else if Subject(l).Some? {
      SubjectShape(w, l);
    }
  }

  lemma WithoutKeepsDistinct(list: seq<ActiveAction>, name: string)
    requires DistinctNames(list)
    ensures DistinctNames(Without(list, name))
    ensures list == [] ==> Without(list, name) == []
  {
  }

  lemma WeakPutStatus(env: Env, w: World, s: string, why: Why, st: Status)
    requires s in w.mjs && WeakMJ(w, s) && Allowed(env, w, PutStatus(s, why, st))
    ensures WeakMJ(Next(w, PutStatus(s, why, st)), s)
  {
    SubjectShape(w, PutStatus(s, why, st));
    var list := w.mjs[s].status.activeActions;
    match why {
      case Record(action, _) =>
        assert FindActiveAction(list, action.name) < 0 ==>
          forall i | 0 <= i < |list| :: st.activeActions[i] == st.activeActions[..|list|][i] == list[i];
      case Drop(name) =>
        WithoutKeepsDistinct(list, name);
        SameTokensSameLog(Without(list, name), st.activeActions);
      case _ =>
        SameTokensSameLog(list, st.activeActions);
    }
  }

  lemma WeakSubject(env: Env, w: World, l: Label, s: string)
    requires Subject(l) == Some(s) && Allowed(env, w, l)
    requires s in w.mjs ==> WeakMJ(w, s)
    ensures s in Next(w, l).mjs ==> WeakMJ(Next(w, l), s)
  {
    SubjectShape(w, l);
    if l.PutStatus? {
      WeakPutStatus(env, w, s, l.why, l.status);
    } else if s in w.mjs {
      EditedShape(w.mjs[s], l);
    }
  }

  lemma WeakStep(env: Env, w: World, l: Label)
    requires WeakInv(w) && Allowed(env, w, l)
    ensures WeakInv(Next(w, l))
  {
    OtherMJsKept(w, l);
    forall s | s in Next(w, l).mjs
      ensures WeakMJ(Next(w, l), s)
    {
      if Subject(l) == Some(s) {
        WeakSubject(env, w, l, s);
      } else {
        assert WeakMJ(w, s);
      }
    }
  }

  lemma PutStatusStays(w: World, s: string, why: Why, st: Status)
    requires s in w.mjs
    ensures s in Next(w, PutStatus(s, why, st)).mjs
  {
    StatusShape(w, s, why, st);
  }

  lemma BooksPutStatus(env: Env, w: World, s: string, why: Why, st: Status)
    requires EnvOK(env) && env.freshReads && s in w.mjs && StatusOK(env, s, w.mjs[s])
    requires Allowed(env, w, PutStatus(s, why, st)) && (why.Touch? || why.Start? || why.Finish?)
    ensures s in Next(w, PutStatus(s, why, st)).mjs && StatusOK(env, s, Next(w, PutStatus(s, why, st)).mjs[s])
  {
    SubjectShape(w, PutStatus(s, why, st));
    PutStatusStays(w, s, why, st);
    var mj := w.mjs[s];
    SameTokensSameLog(mj.status.activeActions, st.activeActions);
    if why.Finish? {
      AppendKeepsLast(mj.audit, why.entry);
    }
  }

  lemma BooksOfEdit(env: Env, w: World, l: Label, s: string)
    requires EnvOK(env) && env.freshReads && Subject(l) == Some(s) && Allowed(env, w, l) && !l.PutStatus?
    requires s in w.mjs ==> StatusOK(env, s, w.mjs[s]) && WeakMJ(w, s)
    ensures s in Next(w, l).mjs ==> StatusOK(env, s, Next(w, l).mjs[s])
    ensures Tokens(Next(w, l), s) == Tokens(w, s)
  {
    SubjectShape(w, l);
    if s in w.mjs {
      EditedShape(w.mjs[s], l);
    }
  }

  lemma BooksOfSubject(env: Env, w: World, l: Label, s: string)
    requires EnvOK(env) && env.freshReads && WritesNoToken(l) && Subject(l) == Some(s) && Allowed(env, w, l)
    requires s in w.mjs ==> StatusOK(env, s, w.mjs[s]) && WeakMJ(w, s)
    ensures s in Next(w, l).mjs ==> StatusOK(env, s, Next(w, l).mjs[s])
    ensures Tokens(Next(w, l), s) == Tokens(w, s)
  {
    if l.PutStatus? {
      BooksPutStatus(env, w, s, l.why, l.status);
      SubjectShape(w, l);
      SameTokensSameLog(w.mjs[s].status.activeActions, l.status.activeActions);
    } else {
      BooksOfEdit(env, w, l, s);
    }
  }

  lemma NoTokenStepKeepsObjects(w: World, l: Label)
    requires WritesNoToken(l) || l.PutStatus?
    ensures Next(w, l).deployments == w.deployments && Next(w, l).jobs == w.jobs && Next(w, l).chaos == w.chaos
  {
    if Subject(l).Some? {
      SubjectShape(w, l);
    }
  }

  lemma BooksStep(env: Env, w: World, l: Label, s: string)
    requires EnvOK(env) && env.freshReads && Inv(env, w) && Allowed(env, w, l) && WritesNoToken(l)
    ensures s in Next(w, l).mjs ==> StatusOK(env, s, Next(w, l).mjs[s])
    ensures Tokens(Next(w, l), s) == Tokens(w, s)
  {
    OtherMJsKept(w, l);
    if s in w.mjs {
      assert WeakMJ(w, s) && StatusOK(env, s, w.mjs[s]);
    }
    if Subject(l) == Some(s) {
      BooksOfSubject(env, w, l, s);
    }
  }

  lemma NoTokenStep(env: Env, w: World, l: Label)
    requires EnvOK(env) && env.freshReads && Inv(env, w) && Allowed(env, w, l) && WritesNoToken(l)
    requires RunsKept(w, Next(w, l)) && RunsInv(Next(w, l))
    ensures StrongInv(env, Next(w, l))
  {
    NoTokenStepKeepsObjects(w, l);
    forall s
      ensures Tokens(Next(w, l), s) == Tokens(w, s)
      ensures s in Next(w, l).mjs ==> StatusOK(env, s, Next(w, l).mjs[s])
    {
      BooksStep(env, w, l, s);
    }
    TokensKeptKeepsObjects(env, w, Next(w, l));
  }

  // ---------- runs under each label ----------

  lemma StartedKept(w: World, l: Label)
    requires forall e | e in w.started :: e <= w.revision
    ensures forall e | e in w.started :: e in Next(w, l).started && Next(w, l).started[e] == w.started[e]
    ensures forall e | e in Next(w, l).started :: e <= Next(w, l).revision
  {
    OtherMJsKept(w, l);
    if l.PutStatus? && l.s in w.mjs {
      StatusShape(w, l.s, l.why, l.status);
    } else {
      OnlyStartStarts(w, l);
    }
  }

  lemma OnlyStartStarts(w: World, l: Label)
    requires !l.PutStatus? || l.s !in w.mjs
    ensures Next(w, l).started == w.started
  {
    if l.CallEnsure? {
      EnsureIsConfined(w, l.rc, l.action, l.token, l.settled);
    } else if l.CallRevert? {
      RevertIsConfined(w, l.rc, l.token);
    } else if Subject(l).Some? && !l.PutStatus? {
      SubjectShape(w, l);
    }
  }

  lemma RunOfSubjectKept(env: Env, w: World, l: Label, s: string)
    requires env.freshReads && Subject(l) == Some(s) && Allowed(env, w, l) && Tokens(w, s) != []
    requires WeakMJ(w, s) && StatusOK(env, s, w.mjs[s])
    ensures RunOf(Next(w, l), s) == RunOf(w, s)
  {
    SubjectShape(w, l);
    if l.PutStatus? {
      assert StrongStatus(env, w, s, l.why, w.mjs[s].status, l.status);
      PutStatusStays(w, s, l.why, l.status);
    } else {
      EditedShape(w.mjs[s], l);
    }
  }

  lemma RunsKeptStep(env: Env, w: World, l: Label)
    requires EnvOK(env) && env.freshReads && Inv(env, w) && Allowed(env, w, l)
    ensures RunsKept(w, Next(w, l))
  {
    StartedKept(w, l);
    OtherMJsKept(w, l);
    forall s | Tokens(w, s) != []
      ensures RunOf(Next(w, l), s) == RunOf(w, s)
    {
      if Subject(l) == Some(s) {
        assert WeakMJ(w, s) && StatusOK(env, s, w.mjs[s]);
        RunOfSubjectKept(env, w, l, s);
      }
    }
  }

  lemma RunOKOfStatus(env: Env, w: World, s: string, why: Why, st: Status)
    requires env.freshReads && s in w.mjs && RunOK(w, s) && Allowed(env, w, PutStatus(s, why, st))
    requires StatusOK(env, s, w.mjs[s])
    requires forall e | e in w.started :: e <= w.revision
    ensures s in Next(w, PutStatus(s, why, st)).mjs && RunOK(Next(w, PutStatus(s, why, st)), s)
  {
    StatusShape(w, s, why, st);
    assert StrongStatus(env, w, s, why, w.mjs[s].status, st);
    if why.Start? {
      NewRunsAreWhole(why.desired, why.at);
      NewRunKeepsDuration(why.desired, why.at);
    }
    TimesAfter(env, w, s, why, st);
  }

  lemma TimesAfter(env: Env, w: World, s: string, why: Why, st: Status)
    requires s in w.mjs && StatusOK(env, s, w.mjs[s]) && StrongStatus(env, w, s, why, w.mjs[s].status, st)
    requires TimesOK(w.mjs[s].audit, w.mjs[s].status.currentRun, w.clock)
    ensures TimesOK(StatusWrittenMJ(w, s, why, st).audit, st.currentRun, w.clock)
  {
    var all := w.mjs[s].audit;
    if why.Start? {
      NewRunKeepsDuration(why.desired, why.at);
    } else if why.Finish? {
      ChronicleGrows(all, why.entry);
    }
  }

  lemma ChronicleGrows(all: seq<RunHistoryEntry>, entry: RunHistoryEntry)
    requires Chronicle(all) && entry.startedAt <= entry.endedAt
    requires all != [] ==> all[|all| - 1].endedAt < entry.startedAt + SECOND
    ensures Chronicle(all + [entry])
  {
    var more := all + [entry];
    forall i | 0 < i < |more|
      ensures more[i - 1].endedAt < more[i].startedAt + SECOND
    {
      if i < |all| {
        assert more[i] == all[i] && more[i - 1] == all[i - 1];
      }
    }
  }

  lemma RunOKOfSubject(env: Env, w: World, l: Label, s: string)
    requires env.freshReads && Subject(l) == Some(s) && Allowed(env, w, l)
    requires s in w.mjs ==> RunOK(w, s) && StatusOK(env, s, w.mjs[s])
    requires forall e | e in w.started :: e <= w.revision
    ensures s in Next(w, l).mjs ==> RunOK(Next(w, l), s)
  {
    SubjectShape(w, l);
    if l.PutStatus? {
      RunOKOfStatus(env, w, s, l.why, l.status);
    } else if s in w.mjs {
      EditedShape(w.mjs[s], l);
    }
  }

  lemma RunsInvStep(env: Env, w: World, l: Label)
    requires env.freshReads && BooksInv(env, w) && RunsInv(w) && Allowed(env, w, l)
    ensures RunsInv(Next(w, l))
  {
    StartedKept(w, l);
    OtherMJsKept(w, l);
    LeaksAndClock(w, l);
    assert w.clock <= Next(w, l).clock;
    forall s | s in Next(w, l).mjs
      ensures RunOK(Next(w, l), s)
    {
      if Subject(l) == Some(s) {
        RunOKOfSubject(env, w, l, s);
      } else {
        assert RunOK(w, s);
      }
    }
  }

  // ---------- recording a token ----------

  lemma RecordedLog(list: seq<ActiveAction>, list': seq<ActiveAction>)
    requires |list'| == |list| + 1 && list'[..|list|] == list
    ensures TokensOf(list') == TokensOf(list) + [list'[|list|].token]
    ensures forall i | 0 <= i < |list| :: list'[i] == list[i]
  {
    assert forall i | 0 <= i < |list| :: list'[..|list|][i] == list[i];
  }

  /** A write of one status: the other MaintenanceJobs and all objects stay. */
  ghost predicate StatusPut(w: World, w': World, s: string, st: Status, audit: seq<RunHistoryEntry>)
    requires s in w.mjs
  {
    w' == PutMJ(w, s, w.mjs[s].(status := st, audit := audit))
  }

  lemma PutStatusNext(w: World, s: string, why: Why, st: Status)
    requires s in w.mjs && !why.Finish? && !why.Start?
    ensures StatusPut(w, Next(w, PutStatus(s, why, st)), s, st, w.mjs[s].audit)
  {
    assert Next(w, PutStatus(s, why, st)) == StatusWritten(w, s, why, st);
  }

  lemma LogTokens(w: World, w': World, s: string, st: Status, ts': seq<Token>)
    requires s in w.mjs && StatusPut(w, w', s, st, w.mjs[s].audit) && TokensOf(st.activeActions) == ts'
    ensures Tokens(w', s) == ts' && forall x | x != s :: Tokens(w', x) == Tokens(w, x)
  {
  }

  lemma LogBooks(env: Env, w: World, w': World, s: string, st: Status)
    requires s in w.mjs && StatusPut(w, w', s, st, w.mjs[s].audit)
    requires BooksInv(env, w) && StatusOK(env, s, w'.mjs[s])
    ensures BooksInv(env, w')
  {
    forall x | x in w'.mjs
      ensures StatusOK(env, x, w'.mjs[x])
    {
      if x != s {
        assert StatusOK(env, x, w.mjs[x]);
      }
    }
  }

  lemma LogTargets(env: Env, w: World, w': World, s: string)
    requires EnvOK(env) && TargetsInv(env, w) && w'.deployments == w.deployments
    requires forall x | x != s :: Tokens(w', x) == Tokens(w, x)
    requires forall d | d in w.deployments && d in env.domain && env.domain[d] == s ::
               DepInv(env.original[d], w.deployments[d], Tokens(w', s), s, d)
    ensures TargetsInv(env, w')
  {
    forall d | d in w'.deployments && d in env.domain
      ensures DeploymentOK(env, w', d)
    {
      assert DeploymentOK(env, w, d);
    }
  }

  lemma LogCover(w: World, w': World, s: string)
    requires forall x | x != s :: Tokens(w', x) == Tokens(w, x)
    requires forall n | n in w.jobs && w.jobs[n].origin.Load? && w.jobs[n].scenario == Some(s) ::
               WorkloadToken(n) in Tokens(w', s)
    requires forall k | k in w.chaos && w.chaos[k].scenario == Some(s) ::
               ChaosMeshToken(k.kind, k.name) in Tokens(w', s)
    ensures CoverKept(w, w')
  {
  }

  /** Objects untouched by a write that keeps cover and runs are as they should be. */
  lemma SameObjectsKept(env: Env, w: World, w': World)
    requires JobsInv(env, w) && ChaosInv(w) && RunsKept(w, w') && CoverKept(w, w')
    requires w'.jobs == w.jobs && w'.chaos == w.chaos
    ensures JobsInv(env, w') && ChaosInv(w')
  {
    JobsKept(env, w, w');
    ChaosKept(w, w');
  }

  /** What remains to be shown when a status write changes the log of s to ts'. */
  lemma LogStep(env: Env, w: World, w': World, s: string, st: Status, ts': seq<Token>)
    requires EnvOK(env) && StrongInv(env, w) && s in w.mjs && StatusPut(w, w', s, st, w.mjs[s].audit)
    requires TokensOf(st.activeActions) == ts' && StatusOK(env, s, w'.mjs[s])
    requires RunsKept(w, w') && RunsInv(w')
    requires forall d | d in w.deployments && d in env.domain && env.domain[d] == s ::
               DepInv(env.original[d], w.deployments[d], ts', s, d)
    requires forall n | n in w.jobs && w.jobs[n].origin.Load? && w.jobs[n].scenario == Some(s) ::
               WorkloadToken(n) in ts'
    requires forall k | k in w.chaos && w.chaos[k].scenario == Some(s) :: ChaosMeshToken(k.kind, k.name) in ts'
    ensures StrongInv(env, w')
  {
    LogTokens(w, w', s, st, ts');
    LogBooks(env, w, w', s, st);
    LogTargets(env, w, w', s);
    LogCover(w, w', s);
    SameObjectsKept(env, w, w');
  }

  lemma RecordFrozen(actions: seq<Action>, list: seq<ActiveAction>, list': seq<ActiveAction>, action: Action)
    requires Frozen(actions, list) && ValidActions(actions) && action in actions
    requires |list'| == |list| + 1 && list'[..|list|] == list
    requires var aa := list'[|list|];
             aa.name == action.name && aa.atype == action.atype &&
             (aa.token.WorkloadToken? ==> action.workload.Some? && aa.token.name == action.workload.value.name)
    ensures Frozen(actions, list')
  {
    RecordedLog(list, list');
    forall i, j | 0 <= i < |actions| && 0 <= j < |list'| && actions[i].name == list'[j].name
      ensures actions[i].atype == list'[j].atype
      ensures actions[i].workload.Some? && list'[j].token.WorkloadToken? ==>
                actions[i].workload.value.name == list'[j].token.name
    {
      if j == |list| {
        assert actions[i] == action;
      }
    }
  }

  lemma RecordedTokenOK(env: Env, w: World, s: string, run: CurrentRun, actions: seq<Action>, action: Action,
                        aa: ActiveAction)
    requires EnvOK(env) && ActionsOK(env, s, actions) && action in actions && aa.atype == action.atype
    requires PlanAgrees(w, RunContextOf(env, s, Some(run)), action, aa.token)
    ensures TokenOK(env, s, run, aa)
  {
    if aa.token.DBExecToken? {
      ExecNamesCarryRun(action.dbExec.value.name, env.digest(run.id));
    }
  }

  lemma RecordBooks(env: Env, w: World, w': World, s: string, action: Action, rc: RunContext, st: Status)
    requires EnvOK(env) && s in w.mjs && StatusOK(env, s, w.mjs[s]) && StatusPut(w, w', s, st, w.mjs[s].audit)
    requires WeakStatus(Record(action, rc), w.mjs[s].status, st)
    requires StrongStatus(env, w, s, Record(action, rc), w.mjs[s].status, st)
    ensures StatusOK(env, s, w'.mjs[s])
  {
    var mj := w.mjs[s];
    var list := mj.status.activeActions;
    RecordedLog(list, st.activeActions);
    RecordFrozen(mj.spec.actions, list, st.activeActions, action);
    RecordedTokenOK(env, w, s, st.currentRun.value, mj.spec.actions, action, st.activeActions[|list|]);
  }

  lemma RecordKeepsDeployment(env: Env, w: World, s: string, action: Action, rc: RunContext, t: Token, d: string)
    requires EnvOK(env) && StrongInv(env, w) && s in w.mjs && action in w.mjs[s].spec.actions &&
             PlanAgrees(w, rc, action, t)
    requires d in w.deployments && d in env.domain && env.domain[d] == s
    ensures DepInv(env.original[d], w.deployments[d], Tokens(w, s) + [t], s, d)
  {
    assert DeploymentOK(env, w, d) && StatusOK(env, s, w.mjs[s]);
    assert ActionsOK(env, s, w.mjs[s].spec.actions);
    RecordKeeps(env.original[d], w.deployments[d], Tokens(w, s), s, d, w, rc, action, t);
  }

  lemma RecordStep(env: Env, w: World, s: string, action: Action, rc: RunContext, st: Status)
    requires EnvOK(env) && env.freshReads && Inv(env, w)
    requires Allowed(env, w, PutStatus(s, Record(action, rc), st))
    requires var w' := Next(w, PutStatus(s, Record(action, rc), st)); RunsKept(w, w') && RunsInv(w')
    ensures StrongInv(env, Next(w, PutStatus(s, Record(action, rc), st)))
  {
    var w' := Next(w, PutStatus(s, Record(action, rc), st));
    PutStatusNext(w, s, Record(action, rc), st);
    var list := w.mjs[s].status.activeActions;
    RecordedLog(list, st.activeActions);
    var t := st.activeActions[|list|].token;
    assert StatusOK(env, s, w.mjs[s]);
    RecordBooks(env, w, w', s, action, rc, st);
    forall d | d in w.deployments && d in env.domain && env.domain[d] == s
      ensures DepInv(env.original[d], w.deployments[d], Tokens(w, s) + [t], s, d)
    {
      RecordKeepsDeployment(env, w, s, action, rc, t, d);
    }
    forall n | n in w.jobs && w.jobs[n].origin.Load? && w.jobs[n].scenario == Some(s)
      ensures WorkloadToken(n) in Tokens(w, s) + [t]
    {
      assert JobOK(env, w, n);
    }
    forall k | k in w.chaos && w.chaos[k].scenario == Some(s)
      ensures ChaosMeshToken(k.kind, k.name) in Tokens(w, s) + [t]
    {
      assert ChaosOK(w, k);
    }
    LogStep(env, w, w', s, st, Tokens(w, s) + [t]);
  }

  // ---------- dropping the newest token ----------

  lemma DroppedLog(list: seq<ActiveAction>, list': seq<ActiveAction>)
    requires DistinctNames(list) && list != []
    requires SameTokens(Without(list, list[|list| - 1].name), list')
    ensures |list'| == |list| - 1 && TokensOf(list') == TokensOf(list)[..|list| - 1]
    ensures forall i | 0 <= i < |list'| ::
              list'[i].name == list[i].name && list'[i].atype == list[i].atype && list'[i].token == list[i].token
  {
    assert FindActiveAction(list, list[|list| - 1].name) == |list| - 1;
    assert Without(list, list[|list| - 1].name) == list[..|list| - 1];
  }

  lemma DropBooks(env: Env, w: World, w': World, s: string, name: string, st: Status)
    requires EnvOK(env) && s in w.mjs && StatusOK(env, s, w.mjs[s]) && DistinctNames(w.mjs[s].status.activeActions)
    requires StatusPut(w, w', s, st, w.mjs[s].audit)
    requires WeakStatus(Drop(name), w.mjs[s].status, st)
    requires StrongStatus(env, w, s, Drop(name), w.mjs[s].status, st)
    ensures StatusOK(env, s, w'.mjs[s])
  {
    var list := w.mjs[s].status.activeActions;
    DroppedLog(list, st.activeActions);
    FewerFrozen(w.mjs[s].spec.actions, list, st.activeActions);
  }

  lemma FewerFrozen(actions: seq<Action>, list: seq<ActiveAction>, list': seq<ActiveAction>)
    requires Frozen(actions, list) && |list'| <= |list|
    requires forall i | 0 <= i < |list'| ::
               list'[i].name == list[i].name && list'[i].atype == list[i].atype && list'[i].token == list[i].token
    ensures Frozen(actions, list')
  {
  }

  lemma DropKeepsObjects(env: Env, w: World, s: string)
    requires EnvOK(env) && StrongInv(env, w) && Tokens(w, s) != [] && Undone(w, s, Tokens(w, s)[|Tokens(w, s)| - 1])
    ensures var ts' := Tokens(w, s)[..|Tokens(w, s)| - 1];
            && (forall d | d in w.deployments && d in env.domain && env.domain[d] == s ::
                  DepInv(env.original[d], w.deployments[d], ts', s, d))
            && (forall n | n in w.jobs && w.jobs[n].origin.Load? && w.jobs[n].scenario == Some(s) ::
                  WorkloadToken(n) in ts')
            && (forall k | k in w.chaos && w.chaos[k].scenario == Some(s) :: ChaosMeshToken(k.kind, k.name) in ts')
  {
    var ts := Tokens(w, s);
    forall d | d in w.deployments && d in env.domain && env.domain[d] == s
      ensures DepInv(env.original[d], w.deployments[d], ts[..|ts| - 1], s, d)
    {
      assert DeploymentOK(env, w, d);
      DropKeeps(env.original[d], w.deployments[d], ts, s, d, w);
    }
    forall n | n in w.jobs && w.jobs[n].origin.Load? && w.jobs[n].scenario == Some(s)
      ensures WorkloadToken(n) in ts[..|ts| - 1]
    {
      assert JobOK(env, w, n);
      KeptInFront(ts, WorkloadToken(n));
    }
    forall k | k in w.chaos && w.chaos[k].scenario == Some(s)
      ensures ChaosMeshToken(k.kind, k.name) in ts[..|ts| - 1]
    {
      assert ChaosOK(w, k);
      KeptInFront(ts, ChaosMeshToken(k.kind, k.name));
    }
  }

  lemma DropsNewest(env: Env, w: World, s: string, name: string, st: Status)
    requires env.freshReads && Allowed(env, w, PutStatus(s, Drop(name), st))
    ensures s in w.mjs && w.mjs[s].status.activeActions != []
    ensures WeakStatus(Drop(name), w.mjs[s].status, st) && StrongStatus(env, w, s, Drop(name), w.mjs[s].status, st)
    ensures var list := w.mjs[s].status.activeActions;
            && name == list[|list| - 1].name && SameTokens(Without(list, name), st.activeActions)
            && Undone(w, s, list[|list| - 1].token)
  {
  }

  lemma DropStep(env: Env, w: World, s: string, name: string, st: Status)
    requires EnvOK(env) && env.freshReads && Inv(env, w)
    requires Allowed(env, w, PutStatus(s, Drop(name), st))
    requires var w' := Next(w, PutStatus(s, Drop(name), st)); RunsKept(w, w') && RunsInv(w')
    ensures StrongInv(env, Next(w, PutStatus(s, Drop(name), st)))
  {
    PutStatusNext(w, s, Drop(name), st);
    DropsNewest(env, w, s, name, st);
    DroppedKeeps(env, w, Next(w, PutStatus(s, Drop(name), st)), s, name, st);
  }

  lemma DroppedKeeps(env: Env, w: World, w': World, s: string, name: string, st: Status)
    requires EnvOK(env) && env.freshReads && Inv(env, w) && RunsKept(w, w') && RunsInv(w')
    requires s in w.mjs && StatusPut(w, w', s, st, w.mjs[s].audit) && w.mjs[s].status.activeActions != []
    requires WeakStatus(Drop(name), w.mjs[s].status, st) && StrongStatus(env, w, s, Drop(name), w.mjs[s].status, st)
    requires var list := w.mjs[s].status.activeActions;
             && name == list[|list| - 1].name && SameTokens(Without(list, name), st.activeActions)
             && Undone(w, s, list[|list| - 1].token)
    ensures StrongInv(env, w')
  {
    assert WeakMJ(w, s) && StatusOK(env, s, w.mjs[s]);
    DroppedLog(w.mjs[s].status.activeActions, st.activeActions);
    DropBooks(env, w, w', s, name, st);
    var ts := Tokens(w, s);
    DropKeepsObjects(env, w, s);
    LogStep(env, w, w', s, st, ts[..|ts| - 1]);
  }

  lemma KeptInFront(ts: seq<Token>, t: Token)
    requires ts != []
    ensures t in ts && t != ts[|ts| - 1] ==> t in ts[..|ts| - 1]
  {
  }

  // ---------- Ensure and Revert ----------

  /** A confined call that keeps its target's log and makes only covered objects keeps everything. */
  lemma ConfinedKeeps(env: Env, w: World, w': World, s: string, t: Token)
    requires EnvOK(env) && StrongInv(env, w) && Confined(w, w', s, t)
    requires forall d | d in w.deployments && d in env.domain && Targets(t, d) ::
               env.domain[d] == s && DepInv(env.original[d], w'.deployments[d], Tokens(w, s), s, d)
    requires forall n | n in w'.jobs && n !in w.jobs :: JobOK(env, w', n)
    requires forall k | k in w'.chaos && k !in w.chaos :: ChaosOK(w', k)
    ensures StrongInv(env, w')
  {
    assert forall x :: Tokens(w', x) == Tokens(w, x);
    ConfinedTargets(env, w, w', s, t);
    JobsKept(env, w, w');
    ChaosKept(w, w');
    SameRuns(w, w');
  }

  lemma SameRuns(w: World, w': World)
    requires RunsInv(w) && w'.mjs == w.mjs && w'.clock == w.clock && w'.started == w.started &&
             w'.revision == w.revision
    ensures RunsInv(w')
  {
    forall x | x in w'.mjs
      ensures RunOK(w', x)
    {
      assert RunOK(w, x);
    }
  }

  lemma ConfinedTargets(env: Env, w: World, w': World, s: string, t: Token)
    requires EnvOK(env) && TargetsInv(env, w) && Confined(w, w', s, t)
    requires forall d | d in w.deployments && d in env.domain && Targets(t, d) ::
               env.domain[d] == s && DepInv(env.original[d], w'.deployments[d], Tokens(w, s), s, d)
    ensures TargetsInv(env, w')
  {
    assert forall x :: Tokens(w', x) == Tokens(w, x);
    forall d | d in w'.deployments && d in env.domain
      ensures DeploymentOK(env, w', d)
    {
      assert DeploymentOK(env, w, d);
    }
  }

  lemma TargetIsOwn(env: Env, w: World, s: string, i: nat, d: string)
    requires EnvOK(env) && StrongInv(env, w) && i < |Tokens(w, s)| && Targets(Tokens(w, s)[i], d)
    ensures OwnTarget(env, s, d)
  {
    assert StatusOK(env, s, w.mjs[s]);
  }

  lemma EnsureKeepsTarget(env: Env, w: World, s: string, i: nat, rc: RunContext, a: Action, settled: bool, d: string)
    requires EnvOK(env) && StrongInv(env, w) && rc.scenario == s
    requires i < |Tokens(w, s)| && Targets(Tokens(w, s)[i], d) && d in w.deployments
    ensures OwnTarget(env, s, d)
    ensures DepInv(env.original[d], EnsureEffect(w, rc, a, Tokens(w, s)[i], settled).world.deployments[d], Tokens(w, s),
                   s, d)
  {
    TargetIsOwn(env, w, s, i, d);
    assert DeploymentOK(env, w, d);
    var ts := Tokens(w, s);
    if ts[i].ScaleToken? {
      ScaleEnsureKeeps(env.original[d], w, ts, i, s, d, rc, a);
    } else {
      DeployImageEnsureKeeps(env.original[d], w, ts, i, s, d, rc, a, settled);
    }
  }

  /** The call is made in the run in flight. */
  ghost predicate InFlightContext(env: Env, w: World, rc: RunContext) {
    && RunOf(w, rc.scenario).Some? && rc == RunContextOf(env, rc.scenario, RunOf(w, rc.scenario))
    && RunOK(w, rc.scenario)
  }

  lemma WorkloadMakesCovered(env: Env, w: World, rc: RunContext, a: Action, t: Token)
    requires RunOf(w, rc.scenario).Some? && Lasting(RunOf(w, rc.scenario).value)
    requires t.WorkloadToken? && t in Tokens(w, rc.scenario) && (a.workload.Some? ==> t.name == a.workload.value.name)
    requires InFlightContext(env, w, rc)
    ensures var w' := WorkloadEnsure(w, rc, a, t).world;
            w'.chaos == w.chaos && forall n | n in w'.jobs && n !in w.jobs :: JobOK(env, w', n)
  {
  }

  lemma ChaosMakesCovered(env: Env, w: World, rc: RunContext, a: Action, t: Token)
    requires RunOf(w, rc.scenario).Some? && Lasting(RunOf(w, rc.scenario).value)
    requires t.ChaosMeshToken? && t in Tokens(w, rc.scenario) && InFlightContext(env, w, rc)
    ensures var w' := ChaosMeshEnsure(w, rc, a, t).world;
            w'.jobs == w.jobs && forall k | k in w'.chaos && k !in w.chaos :: ChaosOK(w', k)
  {
  }

  lemma ExecMakesNamed(env: Env, w: World, rc: RunContext, name: string, phase: ExecPhase)
    requires InFlightContext(env, w, rc)
    requires match phase case EnsurePhase => EnsureNamed(name, rc.digest) case RevertPhase => RevertNamed(name,
                                                                                                          rc.digest)
    ensures var w' := RunJob(w, rc, name, phase).world;
            w'.chaos == w.chaos && forall n | n in w'.jobs && n !in w.jobs :: JobOK(env, w', n)
  {
  }

  lemma EnsureMakesCovered(env: Env, w: World, rc: RunContext, a: Action, t: Token, settled: bool)
    requires EnvOK(env) && t in Tokens(w, rc.scenario) && InFlightContext(env, w, rc)
    requires Lasting(RunOf(w, rc.scenario).value)
    requires t.WorkloadToken? && a.workload.Some? ==> t.name == a.workload.value.name
    requires t.DBExecToken? ==> EnsureNamed(t.ensureName, rc.digest)
    ensures var w' := EnsureEffect(w, rc, a, t, settled).world;
            (forall n | n in w'.jobs && n !in w.jobs :: JobOK(env, w', n)) &&
            (forall k | k in w'.chaos && k !in w.chaos :: ChaosOK(w', k))
  {
    match t {
      case WorkloadToken(_) => WorkloadMakesCovered(env, w, rc, a, t);
      case ChaosMeshToken(_, _) => ChaosMakesCovered(env, w, rc, a, t);
      case DBExecToken(name, _, _) => ExecMakesNamed(env, w, rc, name, EnsurePhase);
      case _ =>
    }
  }

  lemma RevertMakesCovered(env: Env, w: World, rc: RunContext, t: Token)
    requires EnvOK(env) && InFlightContext(env, w, rc)
    requires t.DBExecToken? ==> RevertNamed(t.revertName, rc.digest)
    ensures var w' := RevertEffect(w, rc, t).world;
            (forall n | n in w'.jobs && n !in w.jobs :: JobOK(env, w', n)) &&
            (forall k | k in w'.chaos && k !in w.chaos :: ChaosOK(w', k))
  {
    if t.DBExecToken? {
      ExecMakesNamed(env, w, rc, t.revertName, RevertPhase);
    }
  }

  lemma EnsuredStep(env: Env, w: World, s: string, a: Action, t: Token, rc: RunContext, settled: bool)
    requires EnvOK(env) && env.freshReads && Inv(env, w) && Allowed(env, w, CallEnsure(s, a, t, rc, settled))
    ensures StrongInv(env, Next(w, CallEnsure(s, a, t, rc, settled)))
  {
    var i := CalledAction(env, w, s, a, t, rc, settled);
    EnsureIsConfined(w, rc, a, t, settled);
    EnsureKeepsTargets(env, w, s, i, rc, a, settled);
    EnsureMakesCovered(env, w, rc, a, t, settled);
    ConfinedKeeps(env, w, EnsureEffect(w, rc, a, t, settled).world, s, t);
  }

  lemma CalledAction(env: Env, w: World, s: string, a: Action, t: Token, rc: RunContext, settled: bool) returns (i: nat)
    requires EnvOK(env) && env.freshReads && StrongInv(env, w) && Allowed(env, w, CallEnsure(s, a, t, rc, settled))
    ensures i < |Tokens(w, s)| && Tokens(w, s)[i] == t && rc.scenario == s && InFlightContext(env, w, rc)
    ensures Lasting(RunOf(w, s).value)
    ensures t.WorkloadToken? && a.workload.Some? ==> t.name == a.workload.value.name
    ensures t.DBExecToken? ==> EnsureNamed(t.ensureName, rc.digest)
  {
    i := FindActiveAction(w.mjs[s].status.activeActions, a.name);
    assert StatusOK(env, s, w.mjs[s]) && RunOK(w, s);
    assert TokenOK(env, s, w.mjs[s].status.currentRun.value, w.mjs[s].status.activeActions[i]);
  }

  lemma EnsureKeepsTargets(env: Env, w: World, s: string, i: nat, rc: RunContext, a: Action, settled: bool)
    requires EnvOK(env) && StrongInv(env, w) && rc.scenario == s && i < |Tokens(w, s)|
    ensures var t := Tokens(w, s)[i];
            var w' := EnsureEffect(w, rc, a, t, settled).world;
            w'.deployments.Keys == w.deployments.Keys &&
            forall d | d in w.deployments && d in env.domain && Targets(t, d) ::
              env.domain[d] == s && DepInv(env.original[d], w'.deployments[d], Tokens(w, s), s, d)
  {
    EnsureIsConfined(w, rc, a, Tokens(w, s)[i], settled);
    forall d | d in w.deployments && d in env.domain && Targets(Tokens(w, s)[i], d)
      ensures env.domain[d] == s
      ensures DepInv(env.original[d], EnsureEffect(w, rc, a, Tokens(w, s)[i], settled).world.deployments[d],
                     Tokens(w, s), s, d)
    {
      EnsureKeepsTarget(env, w, s, i, rc, a, settled, d);
    }
  }

  lemma RevertKeepsTarget(env: Env, w: World, s: string, i: nat, rc: RunContext, d: string)
    requires EnvOK(env) && StrongInv(env, w) && rc.scenario == s
    requires i < |Tokens(w, s)| && Targets(Tokens(w, s)[i], d) && d in w.deployments
    ensures OwnTarget(env, s, d)
    ensures DepInv(env.original[d], RevertEffect(w, rc, Tokens(w, s)[i]).world.deployments[d], Tokens(w, s), s, d)
  {
    TargetIsOwn(env, w, s, i, d);
    assert DeploymentOK(env, w, d);
    var ts := Tokens(w, s);
    if ts[i].ScaleToken? {
      ScaleRevertKeeps(env.original[d], w, ts, i, s, d, rc);
    } else {
      DeployImageRevertKeeps(env.original[d], w, ts, i, s, d, rc);
    }
  }

  lemma RevertedStep(env: Env, w: World, s: string, t: Token, rc: RunContext)
    requires EnvOK(env) && env.freshReads && Inv(env, w) && Allowed(env, w, CallRevert(s, t, rc))
    ensures StrongInv(env, Next(w, CallRevert(s, t, rc)))
  {
    var i := CalledNewest(env, w, s, t, rc);
    RevertIsConfined(w, rc, t);
    RevertKeepsTargets(env, w, s, i, rc);
    RevertMakesCovered(env, w, rc, t);
    ConfinedKeeps(env, w, RevertEffect(w, rc, t).world, s, t);
  }

  lemma CalledNewest(env: Env, w: World, s: string, t: Token, rc: RunContext) returns (i: nat)
    requires EnvOK(env) && env.freshReads && StrongInv(env, w) && Allowed(env, w, CallRevert(s, t, rc))
    ensures i < |Tokens(w, s)| && Tokens(w, s)[i] == t && rc.scenario == s && InFlightContext(env, w, rc)
    ensures t.DBExecToken? ==> RevertNamed(t.revertName, rc.digest)
  {
    i := |Tokens(w, s)| - 1;
    assert StatusOK(env, s, w.mjs[s]) && RunOK(w, s);
    assert TokenOK(env, s, w.mjs[s].status.currentRun.value, w.mjs[s].status.activeActions[i]);
  }

  lemma RevertKeepsTargets(env: Env, w: World, s: string, i: nat, rc: RunContext)
    requires EnvOK(env) && StrongInv(env, w) && rc.scenario == s && i < |Tokens(w, s)|
    ensures var t := Tokens(w, s)[i];
            var w' := RevertEffect(w, rc, t).world;
            w'.deployments.Keys == w.deployments.Keys &&
            forall d | d in w.deployments && d in env.domain && Targets(t, d) ::
              env.domain[d] == s && DepInv(env.original[d], w'.deployments[d], Tokens(w, s), s, d)
  {
    RevertIsConfined(w, rc, Tokens(w, s)[i]);
    forall d | d in w.deployments && d in env.domain && Targets(Tokens(w, s)[i], d)
      ensures env.domain[d] == s
      ensures DepInv(env.original[d], RevertEffect(w, rc, Tokens(w, s)[i]).world.deployments[d], Tokens(w, s), s, d)
    {
      RevertKeepsTarget(env, w, s, i, rc, d);
    }
  }

  // ---------- the cluster's steps ----------

  predicate ClusterLabel(l: Label) {
    l.JobFinishes? || l.JobGone? || l.ChaosGone? || l.DeploymentGone? || l.OutsideJob? || l.SweepJob? ||
      l.SweepDeployment?
  }

  /** Objects disappear or change state; none appears under a scenario's label. */
  ghost predicate Shrinks(w: World, w': World) {
    && w'.mjs == w.mjs && w'.started == w.started && w'.clock == w.clock && w'.revision == w.revision
    && (forall d | d in w'.deployments :: d in w.deployments && w'.deployments[d] == w.deployments[d])
    && (forall n | n in w'.jobs ::
          if n in w.jobs then SameJob(w.jobs[n], w'.jobs[n])
          else w'.jobs[n].origin == Outside && w'.jobs[n].scenario.None?)
    && (forall k | k in w'.chaos :: k in w.chaos && w'.chaos[k] == w.chaos[k])
  }

  lemma ClusterShrinks(env: Env, w: World, l: Label)
    requires Allowed(env, w, l) && ClusterLabel(l)
    ensures Shrinks(w, Next(w, l))
  {
    assert l.OutsideJob? ==> l.job !in w.jobs;
    ClusterShape(w, l);
  }

  lemma ClusterShape(w: World, l: Label)
    requires ClusterLabel(l) && (l.OutsideJob? ==> l.job !in w.jobs)
    ensures Shrinks(w, Next(w, l))
  {
  }

  lemma ShrinkingKeeps(env: Env, w: World, w': World)
    requires EnvOK(env) && StrongInv(env, w) && Shrinks(w, w')
    ensures StrongInv(env, w')
  {
    assert forall x :: Tokens(w', x) == Tokens(w, x);
    forall d | d in w'.deployments && d in env.domain
      ensures DeploymentOK(env, w', d)
    {
      assert DeploymentOK(env, w, d);
    }
    JobsKept(env, w, w');
    ChaosKept(w, w');
    SameRuns(w, w');
  }

  lemma ClusterStep(env: Env, w: World, l: Label)
    requires EnvOK(env) && StrongInv(env, w) && Allowed(env, w, l) && ClusterLabel(l)
    ensures StrongInv(env, Next(w, l))
  {
    ClusterShrinks(env, w, l);
    ShrinkingKeeps(env, w, Next(w, l));
  }

  // ---------- every step, every run ----------

  /** Labels that write a token, or call an action. */
  lemma TokenStep(env: Env, w: World, l: Label)
    requires EnvOK(env) && env.freshReads && Inv(env, w) && Allowed(env, w, l)
    requires !WritesNoToken(l) && !ClusterLabel(l)
    requires RunsKept(w, Next(w, l)) && RunsInv(Next(w, l))
    ensures StrongInv(env, Next(w, l))
  {
    if l.CallEnsure? {
      EnsuredStep(env, w, l.s, l.action, l.token, l.rc, l.settled);
    } else if l.CallRevert? {
      RevertedStep(env, w, l.s, l.token, l.rc);
    } else if l.why.Record? {
      assert l == PutStatus(l.s, Record(l.why.action, l.why.rc), l.status);
      RecordStep(env, w, l.s, l.why.action, l.why.rc, l.status);
    } else {
      assert l == PutStatus(l.s, Drop(l.why.name), l.status);
      DropStep(env, w, l.s, l.why.name, l.status);
    }
  }

  /** The invariant is inductive over all labels of the operator, the users and the cluster. */
  lemma InvStep(env: Env, w: World, l: Label)
    requires EnvOK(env) && Inv(env, w) && Allowed(env, w, l)
    ensures Inv(env, Next(w, l))
  {
    WeakStep(env, w, l);
    if env.freshReads {
      RunsKeptStep(env, w, l);
      RunsInvStep(env, w, l);
      if WritesNoToken(l) {
        NoTokenStep(env, w, l);
      } else if ClusterLabel(l) {
        ClusterStep(env, w, l);
      } else {
        TokenStep(env, w, l);
      }
    }
  }

  lemma {:induction false} InvRun(env: Env, w: World, ls: seq<Label>)
    requires EnvOK(env) && Inv(env, w) && Legal(env, w, ls)
    ensures Inv(env, After(w, ls))
  {
    if ls != [] {
      InvRun(env, w, ls[..|ls| - 1]);
      InvStep(env, After(w, ls[..|ls| - 1]), ls[|ls| - 1]);
    }
  }
}
