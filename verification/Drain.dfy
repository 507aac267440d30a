/** Draining terminates: a measure on the live tokens and the work left on the newest one, which
    only a setback of an exec Job can raise, and which some step can always lower. */
module Drain {
  import opened Prelude
  import opened Names
  import opened Api
  import opened Actions
  import opened Helpers
  import opened Protocol
  import opened UndoLog
  import opened Invariants
  import opened Interference
  import opened Theorems

  /** Labels of a drain: nothing is recorded, injected or started. */
  predicate Drains(l: Label) {
    !l.CallEnsure? && !(l.PutStatus? && (l.why.Record? || l.why.Start?))
  }

  function JobWork(w: World, s: string, n: string): nat {
    if n !in w.jobs || w.jobs[n].scenario != Some(s) then 0
    else if w.jobs[n].deleting then 1 else 2
  }

  function ChaosWork(w: World, s: string, k: ChaosKey): nat {
    if k !in w.chaos || w.chaos[k].scenario != Some(s) then 0
    else if w.chaos[k].deleting then 1 else 2
  }

  /** succeeded 0, running 1, absent 2, failed and going 3, failed 4. */
  function ExecWork(w: World, s: string, n: string): nat {
    if n !in w.jobs || w.jobs[n].scenario != Some(s) then 2
    else match w.jobs[n].state
      case Succeeded => 0
      case Running => 1
      case JobFailed => if w.jobs[n].deleting then 3 else 4
  }

  /** Bad image live 2, only marks left 1, nothing left 0. */
  function ImageWork(dep: Deployment, c: string, bad: string): nat {
    if ContainerIndex(dep.containers, c) >= 0 && ImageOf(dep.containers, c) == bad then 2
    else if c in dep.knownGood || dep.heldBy != "" then 1 else 0
  }

  /** What is left to do before Revert of the token reports done. */
  function Work(w: World, s: string, t: Token): (r: nat)
    ensures r <= 4
  {
    match t
    case ScaleToken(d, prev) =>
      if d !in w.deployments || HeldByOther(w.deployments[d], s)
         || (w.deployments[d].replicas == Some(prev) && w.deployments[d].heldBy == "") then 0 else 1
    case DeployImageToken(d, c, good, bad) =>
      if d !in w.deployments || HeldByOther(w.deployments[d], s) then 0 else ImageWork(w.deployments[d], c, bad)
    case WorkloadToken(n) => JobWork(w, s, n)
    case ChaosMeshToken(kind, n) => ChaosWork(w, s, ChaosKey(kind, n))
    case DBExecToken(_, n, statements) => if statements == [] then 0 else ExecWork(w, s, n)
  }

  function Measure(w: World, s: string): nat {
    var ts := Tokens(w, s);
    if ts == [] then 0 else 5 * |ts| + Work(w, s, ts[|ts| - 1])
  }

  /** The newest token of a scenario. */
  function Newest(w: World, s: string): Token
    requires Tokens(w, s) != []
  {
    Tokens(w, s)[|Tokens(w, s)| - 1]
  }

  /** The revert Job of a token fails, or vanishes while it runs or before its success was seen. */
  predicate Hurts(w: World, s: string, t: Token, l: Label) {
    && t.DBExecToken? && t.revertName in w.jobs
    && w.jobs[t.revertName].scenario == Some(s) && w.jobs[t.revertName].state != JobFailed
    && (l == JobFinishes(t.revertName, false) || l == JobGone(t.revertName))
  }

  /** That happens to the newest token. */
  predicate Setback(w: World, s: string, l: Label) {
    Tokens(w, s) != [] && Hurts(w, s, Newest(w, s), l)
  }

  // ---------- nothing else raises the measure ----------

  lemma ImageRevertLowers(w: World, rc: RunContext, t: Token)
    requires t.DeployImageToken? && t.goodImage != t.badImage
    ensures var w' := DeployImageRevert(w, rc, t).world;
            && Work(w', rc.scenario, t) <= Work(w, rc.scenario, t)
            && (w' != w || Work(w, rc.scenario, t) > 0 ==> Work(w', rc.scenario, t) < Work(w, rc.scenario, t))
  {
    if t.name in w.deployments && !HeldByOther(w.deployments[t.name], rc.scenario) {
      var dep := w.deployments[t.name];
      if ImageWork(dep, t.container, t.badImage) == 2 {
        RestoreLowers(dep, t);
      } else {
        UnmarkLowers(dep, t);
      }
    }
  }

  lemma RestoreLowers(dep: Deployment, t: Token)
    requires t.DeployImageToken? && t.goodImage != t.badImage && ImageWork(dep, t.container, t.badImage) == 2
    ensures var dep' := dep.(containers := SetImage(dep.containers, ContainerIndex(dep.containers, t.container),
                                                    t.goodImage),
                             knownGood := dep.knownGood - {t.container}, heldBy := "", scenario := None);
            ImageWork(dep', t.container, t.badImage) == 0
  {
    SetImageKeepsIndex(dep.containers, ContainerIndex(dep.containers, t.container), t.goodImage, t.container);
  }

  lemma UnmarkLowers(dep: Deployment, t: Token)
    requires t.DeployImageToken? && ImageWork(dep, t.container, t.badImage) < 2
    ensures var dep' := dep.(knownGood := dep.knownGood - {t.container}, heldBy := "", scenario := None);
            ImageWork(dep', t.container, t.badImage) == 0
  {
  }

  lemma ScaleRevertLowers(w: World, rc: RunContext, t: Token)
    requires t.ScaleToken?
    ensures var w' := ScaleRevert(w, rc, t).world;
            Work(w', rc.scenario, t) == 0 && (w' != w ==> Work(w, rc.scenario, t) > 0)
  {
  }

  lemma JobRevertLowers(w: World, rc: RunContext, t: Token)
    requires t.WorkloadToken?
    ensures var w' := WorkloadRevert(w, rc, t).world;
            && Work(w', rc.scenario, t) == (if Work(w, rc.scenario, t) == 2 then 1 else Work(w, rc.scenario, t))
            && (w' != w ==> Work(w, rc.scenario, t) == 2)
  {
    if t.name in w.jobs {
      assert w.jobs[t.name].deleting ==> w.jobs[t.name := w.jobs[t.name].(deleting := true)] == w.jobs;
    }
  }

  lemma ChaosRevertLowers(w: World, rc: RunContext, t: Token)
    requires t.ChaosMeshToken?
    ensures var w' := ChaosMeshRevert(w, rc, t).world;
            && Work(w', rc.scenario, t) == (if Work(w, rc.scenario, t) == 2 then 1 else Work(w, rc.scenario, t))
            && (w' != w ==> Work(w, rc.scenario, t) == 2)
  {
    var key := ChaosKey(t.kind, t.name);
    if key in w.chaos {
      assert w.chaos[key].deleting ==> w.chaos[key := w.chaos[key].(deleting := true)] == w.chaos;
    }
  }

  lemma ExecRevertLowers(w: World, rc: RunContext, t: Token)
    requires t.DBExecToken?
    ensures var w' := DBExecRevert(w, rc, t).world;
            && Work(w', rc.scenario, t) <= Work(w, rc.scenario, t)
            && (w' != w ==> Work(w', rc.scenario, t) < Work(w, rc.scenario, t))
            && (Work(w, rc.scenario, t) in {2, 4} && NotForeign(w, rc.scenario, t.revertName) ==>
                  Work(w', rc.scenario, t) < Work(w, rc.scenario, t))
  {
    var n := t.revertName;
    if n in w.jobs {
      assert w.jobs[n].deleting ==> w.jobs[n := w.jobs[n].(deleting := true)] == w.jobs;
    }
  }

  /** No Job of somebody else has the name. */
  predicate NotForeign(w: World, s: string, n: string) {
    n in w.jobs ==> w.jobs[n].scenario == Some(s)
  }

  /** A Revert call never adds work, and whenever it changes anything it takes some away. */
  lemma OwnRevertLowers(w: World, rc: RunContext, t: Token)
    requires t.DeployImageToken? ==> t.goodImage != t.badImage
    ensures var w' := RevertEffect(w, rc, t).world;
            && Work(w', rc.scenario, t) <= Work(w, rc.scenario, t)
            && (w' != w ==> Work(w', rc.scenario, t) < Work(w, rc.scenario, t))
  {
    match t {
      case ScaleToken(_, _) => ScaleRevertLowers(w, rc, t);
      case DeployImageToken(_, _, _, _) => ImageRevertLowers(w, rc, t);
      case WorkloadToken(_) => JobRevertLowers(w, rc, t);
      case ChaosMeshToken(_, _) => ChaosRevertLowers(w, rc, t);
      case DBExecToken(_, _, _) => ExecRevertLowers(w, rc, t);
    }
  }

  lemma SteadyWork(env: Env, s: string, w: World, l: Label, t: Token)
    requires EnvOK(env) && env.freshReads && Inv(env, w) && Allowed(env, w, l) && t in Tokens(w, s)
    requires Operator(l) != Some(s)
    requires !Hurts(w, s, t, l)
    ensures Work(Next(w, l), s, t) <= Work(w, s, t)
  {
    var w' := Next(w, l);
    if l.CallEnsure? || l.CallRevert? {
      OtherCallWork(env, s, w, l, t);
    } else if ClusterLabel(l) {
      ClusterWork(env, s, w, l, t);
    } else {
      NoTokenStepKeepsObjects(w, l);
      SameObjectsSameWork(w, Next(w, l), s, t);
    }
  }

  lemma SameObjectsSameWork(w: World, w': World, s: string, t: Token)
    requires w'.deployments == w.deployments && w'.jobs == w.jobs && w'.chaos == w.chaos
    ensures Work(w', s, t) == Work(w, s, t)
  {
  }

  lemma ConfinedWork(w: World, w': World, other: string, call: Token, s: string, t: Token)
    requires Confined(w, w', other, call) && other != s
    requires forall d :: !(Targets(t, d) && Targets(call, d))
    ensures Work(w', s, t) == Work(w, s, t)
  {
    match t {
      case ScaleToken(d, _) => assert Targets(t, d);
      case DeployImageToken(d, _, _, _) => assert Targets(t, d);
      case WorkloadToken(_) =>
      case ChaosMeshToken(_, _) =>
      case DBExecToken(_, _, _) =>
    }
  }

  lemma DisjointTargets(env: Env, w: World, s: string, other: string, t: Token, call: Token, d: string)
    requires EnvOK(env) && StrongInv(env, w) && s != other && t in Tokens(w, s) && call in Tokens(w, other)
    ensures !(Targets(t, d) && Targets(call, d))
  {
    if Targets(t, d) && Targets(call, d) {
      var i :| 0 <= i < |Tokens(w, s)| && Tokens(w, s)[i] == t;
      var j :| 0 <= j < |Tokens(w, other)| && Tokens(w, other)[j] == call;
      TargetIsOwn(env, w, s, i, d);
      TargetIsOwn(env, w, other, j, d);
    }
  }

  lemma CalledTokenIsLive(env: Env, w: World, l: Label)
    requires env.freshReads && (l.CallEnsure? || l.CallRevert?) && Allowed(env, w, l)
    ensures l.token in Tokens(w, l.s)
  {
    if l.CallEnsure? {
      var i := FindActiveAction(w.mjs[l.s].status.activeActions, l.action.name);
      assert Tokens(w, l.s)[i] == l.token;
    } else {
      assert Tokens(w, l.s)[|Tokens(w, l.s)| - 1] == l.token;
    }
  }

  lemma OtherCallWork(env: Env, s: string, w: World, l: Label, t: Token)
    requires EnvOK(env) && env.freshReads && Inv(env, w) && Allowed(env, w, l) && t in Tokens(w, s)
    requires (l.CallEnsure? || l.CallRevert?) && l.s != s
    ensures Work(Next(w, l), s, t) <= Work(w, s, t)
  {
    CalledTokenIsLive(env, w, l);
    var call := CallsConfined(env, w, l);
    forall d
      ensures !(Targets(t, d) && Targets(call, d))
    {
      DisjointTargets(env, w, s, l.s, t, call, d);
    }
    ConfinedWork(w, Next(w, l), l.s, call, s, t);
  }

  /** At most one object of s changes: a Job that gets deleted or finishes, or an object that goes. */
  ghost predicate ClusterEffect(w: World, w': World, s: string, l: Label) {
    && (forall d | d in w'.deployments :: d in w.deployments && w'.deployments[d] == w.deployments[d])
    && (forall k | k in w'.chaos :: k in w.chaos && w'.chaos[k] == w.chaos[k])
    && (forall n | n in w'.jobs && w'.jobs[n].scenario == Some(s) ::
          && n in w.jobs && w.jobs[n].scenario == Some(s) && w'.jobs[n].deleting == w.jobs[n].deleting
          && (w'.jobs[n].state == w.jobs[n].state
              || (w.jobs[n].state == Running && w'.jobs[n].state == (if l == JobFinishes(n, false) then JobFailed
                                                                     else Succeeded))))
    && (forall n | n in w.jobs && w.jobs[n].scenario == Some(s) ::
          l == JobGone(n) || (n in w'.jobs && w'.jobs[n].scenario == Some(s)))
  }

  lemma ClusterEffects(env: Env, w: World, l: Label, s: string)
    requires ClusterLabel(l) && Allowed(env, w, l) && Tokens(w, s) != []
    ensures ClusterEffect(w, Next(w, l), s, l)
  {
    if l.SweepJob? && w.jobs[l.job].scenario == Some(s) {
      IdleOwnerHasNoTokens(w, s);
    }
  }

  lemma ClusterWork(env: Env, s: string, w: World, l: Label, t: Token)
    requires ClusterLabel(l) && Allowed(env, w, l) && t in Tokens(w, s)
    requires !Hurts(w, s, t, l)
    ensures Work(Next(w, l), s, t) <= Work(w, s, t)
  {
    ClusterEffects(env, w, l, s);
    EffectWork(w, Next(w, l), s, l, t);
  }

  /** A failure or loss adds at most three. */
  lemma HurtWork(env: Env, w: World, s: string, t: Token, l: Label)
    requires Allowed(env, w, l) && Hurts(w, s, t, l)
    ensures Work(Next(w, l), s, t) <= Work(w, s, t) + 3
  {
  }

  lemma EffectWork(w: World, w': World, s: string, l: Label, t: Token)
    requires ClusterEffect(w, w', s, l)
    requires !Hurts(w, s, t, l)
    ensures Work(w', s, t) <= Work(w, s, t)
  {
  }

  lemma NewestIsOK(env: Env, w: World, s: string)
    requires EnvOK(env) && StrongInv(env, w) && Tokens(w, s) != []
    ensures Newest(w, s).DeployImageToken? ==> Newest(w, s).goodImage != Newest(w, s).badImage
  {
    assert StatusOK(env, s, w.mjs[s]);
    var i := |Tokens(w, s)| - 1;
    assert TokenOK(env, s, w.mjs[s].status.currentRun.value, w.mjs[s].status.activeActions[i]);
  }

  /** A Revert call lowers the measure whenever it changes anything. */
  lemma OwnCallLowers(env: Env, s: string, w: World, rc: RunContext)
    requires EnvOK(env) && StrongInv(env, w) && Tokens(w, s) != [] && rc.scenario == s
    ensures var w' := Next(w, CallRevert(s, Newest(w, s), rc));
            && Tokens(w', s) == Tokens(w, s)
            && Measure(w', s) <= Measure(w, s) && (w' != w ==> Measure(w', s) < Measure(w, s))
  {
    var l := CallRevert(s, Newest(w, s), rc);
    NewestIsOK(env, w, s);
    CallKeepsTokens(w, l, s);
    OwnRevertLowers(w, rc, Newest(w, s));
    MeasureFollowsWork(w, RevertEffect(w, rc, Newest(w, s)).world, s);
  }

  lemma MeasureFollowsWork(w: World, w': World, s: string)
    requires Tokens(w, s) != [] && Tokens(w', s) == Tokens(w, s)
    ensures Measure(w', s) - Measure(w, s) == Work(w', s, Newest(w, s)) - Work(w, s, Newest(w, s))
  {
  }

  lemma CallKeepsTokens(w: World, l: Label, s: string)
    requires l.CallEnsure? || l.CallRevert?
    ensures Tokens(Next(w, l), s) == Tokens(w, s)
  {
    EffectsKeepMJs(w, l);
  }

  lemma OneTokenLess(w: World, w': World, s: string)
    requires Tokens(w, s) != [] && Tokens(w', s) == Tokens(w, s)[..|Tokens(w, s)| - 1]
    ensures Measure(w', s) < Measure(w, s)
  {
  }

  lemma DropShortens(env: Env, w: World, s: string, name: string, st: Status)
    requires EnvOK(env) && env.freshReads && Inv(env, w) && Allowed(env, w, PutStatus(s, Drop(name), st)) &&
             Tokens(w, s) != []
    ensures Tokens(Next(w, PutStatus(s, Drop(name), st)), s) == Tokens(w, s)[..|Tokens(w, s)| - 1]
  {
    DropsNewest(env, w, s, name, st);
    PutStatusNext(w, s, Drop(name), st);
    TokensPut(w, Next(w, PutStatus(s, Drop(name), st)), s, st);
    assert WeakMJ(w, s);
    DroppedLog(w.mjs[s].status.activeActions, st.activeActions);
  }

  lemma TokensPut(w: World, w': World, s: string, st: Status)
    requires s in w.mjs && StatusPut(w, w', s, st, w.mjs[s].audit)
    ensures Tokens(w', s) == TokensOf(st.activeActions)
  {
  }

  lemma OwnDropLowers(env: Env, s: string, w: World, name: string, st: Status)
    requires EnvOK(env) && env.freshReads && Inv(env, w) && Allowed(env, w, PutStatus(s, Drop(name), st)) &&
             Tokens(w, s) != []
    ensures Measure(Next(w, PutStatus(s, Drop(name), st)), s) < Measure(w, s)
  {
    DropShortens(env, w, s, name, st);
    OneTokenLess(w, Next(w, PutStatus(s, Drop(name), st)), s);
  }

  lemma SameObjectsSameMeasure(w: World, w': World, s: string)
    requires Tokens(w', s) == Tokens(w, s)
    requires w'.deployments == w.deployments && w'.jobs == w.jobs && w'.chaos == w.chaos
    ensures Measure(w', s) == Measure(w, s)
  {
  }

  lemma OwnBooksKeep(env: Env, s: string, w: World, l: Label)
    requires EnvOK(env) && env.freshReads && Inv(env, w) && Allowed(env, w, l) && WritesNoToken(l)
    ensures Measure(Next(w, l), s) == Measure(w, s)
  {
    BooksStep(env, w, l, s);
    NoTokenStepKeepsObjects(w, l);
    SameObjectsSameMeasure(w, Next(w, l), s);
  }

  lemma OwnCallIsNewest(env: Env, s: string, w: World, l: Label)
    requires env.freshReads && Allowed(env, w, l) && l.CallRevert? && l.s == s
    ensures Tokens(w, s) != [] && l == CallRevert(s, Newest(w, s), l.rc) && l.rc.scenario == s
  {
  }

  /** Progress of the operator itself: no drain step raises the measure, a drop always lowers it, and
      a call lowers it whenever it changes anything. */
  lemma OwnWriteLowers(env: Env, s: string, w: World, l: Label)
    requires EnvOK(env) && env.freshReads && Inv(env, w) && Allowed(env, w, l)
    requires Operator(l) == Some(s) && Drains(l) && Tokens(w, s) != []
    ensures Measure(Next(w, l), s) <= Measure(w, s)
    ensures (l.PutStatus? && l.why.Drop?) || (l.CallRevert? && Next(w, l) != w) ==>
              Measure(Next(w, l), s) < Measure(w, s)
  {
    if l.CallRevert? {
      OwnCallIsNewest(env, s, w, l);
      OwnCallLowers(env, s, w, l.rc);
    } else if l.PutStatus? && l.why.Drop? {
      OwnDropLowers(env, s, w, l.why.name, l.status);
    } else {
      OwnBooksKeep(env, s, w, l);
    }
  }

  lemma TokensSurviveOthers(env: Env, s: string, w: World, l: Label)
    requires EnvOK(env) && env.freshReads && Inv(env, w) && Allowed(env, w, l)
    requires Operator(l) != Some(s) && Tokens(w, s) != []
    ensures Tokens(Next(w, l), s) == Tokens(w, s)
  {
    OtherMJsKept(w, l);
    assert WeakMJ(w, s);
  }

  /** Only a setback raises the measure, and by at most three. */
  lemma RiseMeansSetback(env: Env, s: string, w: World, l: Label)
    requires EnvOK(env) && env.freshReads && Inv(env, w) && Allowed(env, w, l)
    requires Tokens(w, s) != [] && (Operator(l) == Some(s) ==> Drains(l))
    ensures Measure(Next(w, l), s) <= Measure(w, s) + (if Setback(w, s, l) then 3 else 0)
  {
    if Operator(l) == Some(s) {
      OwnWriteLowers(env, s, w, l);
    } else {
      TokensSurviveOthers(env, s, w, l);
      MeasureFollowsWork(w, Next(w, l), s);
      if Setback(w, s, l) {
        HurtWork(env, w, s, Newest(w, s), l);
      } else {
        SteadyWork(env, s, w, l, Newest(w, s));
      }
    }
  }

  // ---------- how often it can fall ----------

  /** How many labels of a run lowered the measure. */
  ghost function Falls(w: World, s: string, ls: seq<Label>): nat {
    if ls == [] then 0
    else
      var front := ls[..|ls| - 1];
      Falls(w, s, front) + if Measure(After(w, ls), s) < Measure(After(w, front), s) then 1 else 0
  }

  ghost function Setbacks(w: World, s: string, ls: seq<Label>): nat {
    if ls == [] then 0
    else
      var front := ls[..|ls| - 1];
      Setbacks(w, s, front) + if Setback(After(w, front), s, ls[|ls| - 1]) then 1 else 0
  }

  /** All along the run the scenario has tokens left and is only drained. */
  ghost predicate StillDraining(w: World, s: string, ls: seq<Label>) {
    forall i | 0 <= i < |ls| :: Tokens(At(w, ls, i), s) != [] && (Operator(ls[i]) == Some(s) ==> Drains(ls[i]))
  }

  /** A drain of finitely many failures makes finitely many steps of progress: whatever else
      happens, the falls are bounded by the initial measure and three per setback. */
  lemma {:induction false} DrainIsBounded(env: Env, w: World, s: string, ls: seq<Label>)
    requires EnvOK(env) && env.freshReads && Inv(env, w) && Legal(env, w, ls)
    requires StillDraining(w, s, ls)
    ensures Falls(w, s, ls) + Measure(After(w, ls), s) <= Measure(w, s) + 3 * Setbacks(w, s, ls)
  {
    if ls != [] {
      var front := ls[..|ls| - 1];
      FrontDraining(w, s, ls);
      DrainIsBounded(env, w, s, front);
      InvRun(env, w, front);
      assert At(w, ls, |front|) == After(w, front);
      RiseMeansSetback(env, s, After(w, front), ls[|ls| - 1]);
    }
  }

  lemma FrontDraining(w: World, s: string, ls: seq<Label>)
    requires StillDraining(w, s, ls) && ls != []
    ensures StillDraining(w, s, ls[..|ls| - 1])
  {
    var front := ls[..|ls| - 1];
    forall i | 0 <= i < |front|
      ensures Tokens(At(w, front, i), s) != [] && (Operator(front[i]) == Some(s) ==> Drains(front[i]))
    {
      assert front[..i] == ls[..i] && front[i] == ls[i];
      assert Tokens(At(w, ls, i), s) != [];
    }
  }

  // ---------- it can always fall ----------

  /** No Job of somebody else sits under the name of a revert Job still to run. */
  predicate Unblocked(w: World, s: string) {
    forall i | 0 <= i < |Tokens(w, s)| ::
      var t := Tokens(w, s)[i];
      t.DBExecToken? && t.revert != [] ==> NotForeign(w, s, t.revertName)
  }

  /** The step that brings the drain forward: drop the newest token when nothing is left of it, else
      call its Revert, else wait for the cluster to finish or remove one named object. */
  function NextDrain(env: Env, w: World, s: string): Label
    requires s in w.mjs && w.mjs[s].status.activeActions != []
  {
    var st := w.mjs[s].status;
    var aa := st.activeActions[|st.activeActions| - 1];
    var rc := RunContextOf(env, s, st.currentRun);
    if Work(w, s, aa.token) == 0 then
      PutStatus(s, Drop(aa.name), st.(activeActions := Without(st.activeActions, aa.name)))
    else
      match aa.token
      case WorkloadToken(n) => if Work(w, s, aa.token) == 1 then JobGone(n) else CallRevert(s, aa.token, rc)
      case ChaosMeshToken(kind, n) => if Work(w, s, aa.token) == 1 then ChaosGone(ChaosKey(kind, n))
        else CallRevert(s, aa.token, rc)
      case DBExecToken(_, n, _) =>
        if Work(w, s, aa.token) == 1 then JobFinishes(n, true)
        else if Work(w, s, aa.token) == 3 then JobGone(n)
        else CallRevert(s, aa.token, rc)
      case _ => CallRevert(s, aa.token, rc)
  }

  lemma NoWorkMeansUndone(w: World, s: string, t: Token)
    requires Work(w, s, t) == 0
    ensures Undone(w, s, t)
  {
  }

  lemma DropIsWeak(st: Status, name: string)
    ensures WeakStatus(Drop(name), st, st.(activeActions := Without(st.activeActions, name)))
  {
  }

  lemma DropIsStrong(env: Env, w: World, s: string, name: string, st': Status)
    requires Tokens(w, s) != [] && Undone(w, s, Newest(w, s)) && SameBooks(w.mjs[s].status, st') && MayDrain(w, s)
    requires name == w.mjs[s].status.activeActions[|w.mjs[s].status.activeActions| - 1].name
    ensures StrongStatus(env, w, s, Drop(name), w.mjs[s].status, st')
  {
  }

  lemma DropAllowed(env: Env, w: World, s: string, name: string)
    requires Tokens(w, s) != [] && Undone(w, s, Newest(w, s)) && MayDrain(w, s)
    requires name == w.mjs[s].status.activeActions[|w.mjs[s].status.activeActions| - 1].name
    ensures var st := w.mjs[s].status;
            Allowed(env, w, PutStatus(s, Drop(name), st.(activeActions := Without(st.activeActions, name))))
  {
    var st := w.mjs[s].status;
    DropIsWeak(st, name);
    DropIsStrong(env, w, s, name, st.(activeActions := Without(st.activeActions, name)));
  }

  lemma RevertAllowed(env: Env, w: World, s: string)
    requires NameOK(s) && Tokens(w, s) != [] && MayDrain(w, s)
    ensures var rc := RunContextOf(env, s, w.mjs[s].status.currentRun);
            rc.scenario == s && Allowed(env, w, CallRevert(s, Newest(w, s), rc))
  {
  }

  lemma NextDrainShape(env: Env, w: World, s: string)
    requires Tokens(w, s) != []
    ensures var l, st := NextDrain(env, w, s), w.mjs[s].status;
            && Drains(l) && (l.PutStatus? <==> Work(w, s, Newest(w, s)) == 0)
            && (l.PutStatus? ==>
                  var name := st.activeActions[|st.activeActions| - 1].name;
                  l == PutStatus(s, Drop(name), st.(activeActions := Without(st.activeActions, name))))
            && (l.CallRevert? ==> l == CallRevert(s, Newest(w, s), RunContextOf(env, s, st.currentRun)))
            && (!l.PutStatus? && !l.CallRevert? ==>
                  l.JobGone? || l.ChaosGone? || (l.JobFinishes? && l.job in w.jobs && w.jobs[l.job].state == Running))
  {
  }

  lemma NextDrainAllowed(env: Env, w: World, s: string)
    requires EnvOK(env) && env.freshReads && Inv(env, w) && Tokens(w, s) != [] && MayDrain(w, s)
    ensures Allowed(env, w, NextDrain(env, w, s)) && Drains(NextDrain(env, w, s))
  {
    NextDrainShape(env, w, s);
    var l := NextDrain(env, w, s);
    if l.PutStatus? {
      NoWorkMeansUndone(w, s, Newest(w, s));
      DropAllowed(env, w, s, l.why.name);
    } else if l.CallRevert? {
      assert WeakMJ(w, s);
      RevertAllowed(env, w, s);
    }
  }

  /** The cluster has to finish or remove an object of the newest token first. */
  predicate WaitsForCluster(w: World, s: string) {
    Tokens(w, s) != [] &&
    match Newest(w, s)
    case WorkloadToken(_) => Work(w, s, Newest(w, s)) == 1
    case ChaosMeshToken(_, _) => Work(w, s, Newest(w, s)) == 1
    case DBExecToken(_, _, _) => Work(w, s, Newest(w, s)) in {1, 3}
    case _ => false
  }

  /** A Job of somebody else sits under the name of the newest token's revert Job. */
  predicate Blocked(w: World, s: string) {
    Tokens(w, s) != [] && Newest(w, s).DBExecToken? && Newest(w, s).revert != [] &&
    !NotForeign(w, s, Newest(w, s).revertName)
  }

  predicate Stuck(w: World, s: string) {
    WaitsForCluster(w, s) || Blocked(w, s)
  }

  lemma WaitsMeansClusterNext(env: Env, w: World, s: string)
    requires Tokens(w, s) != []
    ensures WaitsForCluster(w, s) <==> ClusterLabel(NextDrain(env, w, s))
  {
  }

  /** A Revert call reports done, or makes progress, or has to wait. */
  lemma CallProgress(w: World, rc: RunContext, s: string)
    requires Tokens(w, s) != [] && rc.scenario == s
    requires Newest(w, s).DeployImageToken? ==> Newest(w, s).goodImage != Newest(w, s).badImage
    ensures var e := RevertEffect(w, rc, Newest(w, s));
            || e.outcome == Done
            || Work(e.world, s, Newest(w, s)) < Work(w, s, Newest(w, s))
            || Stuck(w, s)
  {
    if Work(w, s, Newest(w, s)) > 0 && !Stuck(w, s) {
      RevertMoves(w, rc, Newest(w, s));
    } else if Work(w, s, Newest(w, s)) == 0 && !Stuck(w, s) {
      NoWorkIsDone(w, rc, Newest(w, s));
    }
  }

  lemma NoWorkIsDone(w: World, rc: RunContext, t: Token)
    requires Work(w, rc.scenario, t) == 0
    requires t.DBExecToken? && t.revert != [] ==> NotForeign(w, rc.scenario, t.revertName)
    ensures RevertEffect(w, rc, t).outcome == Done
  {
  }

  lemma RevertMoves(w: World, rc: RunContext, t: Token)
    requires Work(w, rc.scenario, t) > 0
    requires t.DeployImageToken? ==> t.goodImage != t.badImage
    requires t.WorkloadToken? || t.ChaosMeshToken? ==> Work(w, rc.scenario, t) == 2
    requires t.DBExecToken? ==> Work(w, rc.scenario, t) in {2, 4} && NotForeign(w, rc.scenario, t.revertName)
    ensures Work(RevertEffect(w, rc, t).world, rc.scenario, t) < Work(w, rc.scenario, t)
  {
    match t {
      case ScaleToken(_, _) => ScaleRevertLowers(w, rc, t);
      case DeployImageToken(_, _, _, _) => ImageRevertLowers(w, rc, t);
      case WorkloadToken(_) => JobRevertLowers(w, rc, t);
      case ChaosMeshToken(_, _) => ChaosRevertLowers(w, rc, t);
      case DBExecToken(_, _, _) => ExecRevertLowers(w, rc, t);
    }
  }

  /** A drain by the cluster is one of these, on an object of the newest token. */
  lemma ClusterMoves(env: Env, w: World, s: string)
    requires Tokens(w, s) != [] && Unblocked(w, s)
    requires ClusterLabel(NextDrain(env, w, s))
    ensures Work(Next(w, NextDrain(env, w, s)), s, Newest(w, s)) < Work(w, s, Newest(w, s))
  {
  }

  lemma CallMoves(env: Env, w: World, s: string)
    requires Tokens(w, s) != [] && Unblocked(w, s) && NextDrain(env, w, s).CallRevert?
    requires Newest(w, s).DeployImageToken? ==> Newest(w, s).goodImage != Newest(w, s).badImage
    ensures Work(Next(w, NextDrain(env, w, s)), s, Newest(w, s)) < Work(w, s, Newest(w, s))
  {
    RevertMoves(w, NextDrain(env, w, s).rc, Newest(w, s));
  }

  lemma DropTakesNewest(w: World, s: string, name: string)
    requires Tokens(w, s) != [] && DistinctNames(w.mjs[s].status.activeActions)
    requires name == w.mjs[s].status.activeActions[|w.mjs[s].status.activeActions| - 1].name
    ensures var st := w.mjs[s].status;
            var l := PutStatus(s, Drop(name), st.(activeActions := Without(st.activeActions, name)));
            Tokens(Next(w, l), s) == Tokens(w, s)[..|Tokens(w, s)| - 1]
  {
    var list := w.mjs[s].status.activeActions;
    var left := Without(list, name);
    assert SameTokens(left, left);
    DroppedLog(list, left);
    PutStatusNext(w, s, Drop(name), w.mjs[s].status.(activeActions := left));
  }

  lemma NextDrainTokens(env: Env, w: World, s: string)
    requires EnvOK(env) && env.freshReads && Inv(env, w) && Tokens(w, s) != []
    ensures Tokens(Next(w, NextDrain(env, w, s)), s)
            == if NextDrain(env, w, s).PutStatus? then Tokens(w, s)[..|Tokens(w, s)| - 1] else Tokens(w, s)
  {
    NextDrainShape(env, w, s);
    var l := NextDrain(env, w, s);
    if l.PutStatus? {
      assert WeakMJ(w, s);
      DropTakesNewest(w, s, l.why.name);
    } else if l.CallRevert? {
      CallKeepsTokens(w, l, s);
    } else {
      ClusterSameTokens(w, l, s);
    }
  }

  lemma ClusterSameTokens(w: World, l: Label, s: string)
    requires l.JobFinishes? || l.JobGone? || l.ChaosGone?
    ensures Tokens(Next(w, l), s) == Tokens(w, s)
  {
  }

  lemma NextDrainWorks(env: Env, w: World, s: string)
    requires EnvOK(env) && env.freshReads && Inv(env, w) && Tokens(w, s) != [] && Unblocked(w, s)
    requires !NextDrain(env, w, s).PutStatus?
    ensures Work(Next(w, NextDrain(env, w, s)), s, Newest(w, s)) < Work(w, s, Newest(w, s))
  {
    NextDrainShape(env, w, s);
    NewestIsOK(env, w, s);
    if NextDrain(env, w, s).CallRevert? {
      CallMoves(env, w, s);
    } else {
      ClusterMoves(env, w, s);
    }
  }

  lemma NextDrainLowers(env: Env, w: World, s: string)
    requires EnvOK(env) && env.freshReads && Inv(env, w) && Tokens(w, s) != [] && Unblocked(w, s)
    ensures Measure(Next(w, NextDrain(env, w, s)), s) < Measure(w, s)
  {
    NextDrainTokens(env, w, s);
    var w' := Next(w, NextDrain(env, w, s));
    if NextDrain(env, w, s).PutStatus? {
      OneTokenLess(w, w', s);
    } else {
      NextDrainWorks(env, w, s);
      MeasureFollowsWork(w, w', s);
    }
  }

  /** No Job appears that belongs to somebody else. */
  ghost predicate JobsStayOurs(w: World, w': World, s: string) {
    forall n | n in w'.jobs && w'.jobs[n].scenario != Some(s) :: n in w.jobs &&
      w.jobs[n].scenario == w'.jobs[n].scenario
  }

  lemma DrainJobs(w: World, l: Label, s: string)
    requires l.PutStatus? || (l.CallRevert? && l.rc.scenario == s) || l.JobFinishes? || l.JobGone? || l.ChaosGone?
    ensures JobsStayOurs(w, Next(w, l), s)
  {
    if l.CallRevert? {
      RevertIsConfined(w, l.rc, l.token);
    }
  }

  lemma NextDrainKeepsUnblocked(env: Env, w: World, s: string)
    requires EnvOK(env) && env.freshReads && Inv(env, w) && Tokens(w, s) != [] && Unblocked(w, s)
    ensures Unblocked(Next(w, NextDrain(env, w, s)), s)
  {
    NextDrainTokens(env, w, s);
    NextDrainShape(env, w, s);
    DrainJobs(w, NextDrain(env, w, s), s);
    FewerTokensUnblocked(w, Next(w, NextDrain(env, w, s)), s);
  }

  lemma FewerTokensUnblocked(w: World, w': World, s: string)
    requires Unblocked(w, s) && JobsStayOurs(w, w', s)
    requires |Tokens(w', s)| <= |Tokens(w, s)| && Tokens(w', s) == Tokens(w, s)[..|Tokens(w', s)|]
    ensures Unblocked(w', s)
  {
    assert forall i | 0 <= i < |Tokens(w', s)| :: Tokens(w', s)[i] == Tokens(w, s)[i];
  }

  /** Nothing but the tokens of the resource has changed, and no time has passed. */
  ghost predicate SameRunIn(w: World, w': World, s: string) {
    && w'.clock == w.clock
    && (s in w.mjs ==>
          && s in w'.mjs
          && w'.mjs[s] == w.mjs[s].(version := w'.mjs[s].version,
                                    status := w.mjs[s].status.(activeActions := w'.mjs[s].status.activeActions)))
  }

  lemma NextDrainSameRun(env: Env, w: World, s: string)
    requires Tokens(w, s) != []
    ensures SameRunIn(w, Next(w, NextDrain(env, w, s)), s)
  {
    NextDrainShape(env, w, s);
    var l := NextDrain(env, w, s);
    if l.PutStatus? {
      DropSameRun(w, s, l.why.name);
    } else if l.CallRevert? {
      RevertIsConfined(w, l.rc, l.token);
    } else {
      ClusterSameRun(w, l, s);
    }
  }

  lemma DropSameRun(w: World, s: string, name: string)
    requires s in w.mjs
    ensures var st := w.mjs[s].status;
            var l := PutStatus(s, Drop(name), st.(activeActions := Without(st.activeActions, name)));
            SameRunIn(w, Next(w, l), s)
  {
    var st := w.mjs[s].status;
    PutStatusNext(w, s, Drop(name), st.(activeActions := Without(st.activeActions, name)));
  }

  lemma ClusterSameRun(w: World, l: Label, s: string)
    requires l.JobFinishes? || l.JobGone? || l.ChaosGone?
    ensures SameRunIn(w, Next(w, l), s)
  {
  }

  lemma DrainStep(env: Env, w: World, s: string)
    requires EnvOK(env) && env.freshReads && Inv(env, w) && Tokens(w, s) != [] && Unblocked(w, s) && MayDrain(w, s)
    ensures var l := NextDrain(env, w, s);
            && Allowed(env, w, l) && Drains(l)
            && Inv(env, Next(w, l)) && Unblocked(Next(w, l), s) && Measure(Next(w, l), s) < Measure(w, s)
            && SameRunIn(w, Next(w, l), s)
  {
    NextDrainSameRun(env, w, s);
    NextDrainAllowed(env, w, s);
    NextDrainLowers(env, w, s);
    NextDrainKeepsUnblocked(env, w, s);
    InvStep(env, w, NextDrain(env, w, s));
  }

  ghost predicate DrainingRun(env: Env, w: World, ls: seq<Label>) {
    Legal(env, w, ls) && forall i | 0 <= i < |ls| :: Drains(ls[i])
  }

  lemma DrainingSnoc(env: Env, w: World, ls: seq<Label>, l: Label)
    requires DrainingRun(env, w, ls) && Allowed(env, After(w, ls), l) && Drains(l)
    ensures DrainingRun(env, w, ls + [l]) && After(w, ls + [l]) == Next(After(w, ls), l)
  {
    LegalSnoc(env, w, ls, l);
  }

  /** Carries on with a drain that has got as far as done. */
  lemma {:induction false} DrainOn(env: Env, w: World, s: string, done: seq<Label>) returns (ls: seq<Label>)
    requires EnvOK(env) && env.freshReads && DrainingRun(env, w, done)
    requires Inv(env, After(w, done)) && Unblocked(After(w, done), s) && MayDrain(After(w, done), s)
    ensures DrainingRun(env, w, ls) && |ls| <= |done| + Measure(After(w, done), s) && Tokens(After(w, ls), s) == []
    ensures SameRunIn(After(w, done), After(w, ls), s)
    decreases Measure(After(w, done), s)
  {
    var now := After(w, done);
    if Tokens(now, s) == [] {
      ls := done;
    } else {
      DrainStep(env, now, s);
      DrainingSnoc(env, w, done, NextDrain(env, now, s));
      ls := DrainOn(env, w, s, done + [NextDrain(env, now, s)]);
    }
  }

  // ---------- every drain ends ----------

  /** How many labels of a run were the next step of the drain, the operator's or the cluster's. */
  ghost function DrainSteps(env: Env, w: World, s: string, ls: seq<Label>): nat {
    if ls == [] then 0
    else
      var front := ls[..|ls| - 1];
      var now := After(w, front);
      DrainSteps(env, w, s, front) +
      if Tokens(now, s) != [] && Unblocked(now, s) && ls[|ls| - 1] == NextDrain(env, now, s) then 1 else 0
  }

  lemma {:induction false} DrainStepsAreFalls(env: Env, w: World, s: string, ls: seq<Label>)
    requires EnvOK(env) && env.freshReads && Inv(env, w) && Legal(env, w, ls)
    ensures DrainSteps(env, w, s, ls) <= Falls(w, s, ls)
  {
    if ls != [] {
      var front := ls[..|ls| - 1];
      LegalFront(env, w, ls);
      DrainStepsAreFalls(env, w, s, front);
      InvRun(env, w, front);
      var now := After(w, front);
      if Tokens(now, s) != [] && Unblocked(now, s) && ls[|ls| - 1] == NextDrain(env, now, s) {
        NextDrainLowers(env, now, s);
      }
    }
  }

  /** Every drain ends: whatever the order in which the operator, users and the cluster act, the next
      steps of the drain that are taken while tokens are left are at most as many as the measure says,
      and three more for each setback. */
  lemma DrainStepsAreBounded(env: Env, w: World, s: string, ls: seq<Label>)
    requires EnvOK(env) && env.freshReads && Inv(env, w) && Legal(env, w, ls) && StillDraining(w, s, ls)
    ensures DrainSteps(env, w, s, ls) <= Measure(w, s) + 3 * Setbacks(w, s, ls)
  {
    DrainStepsAreFalls(env, w, s, ls);
    DrainIsBounded(env, w, s, ls);
  }

  /** The scenario's own step i of a run brings its drain forward. */
  ghost predicate OwnFall(w: World, s: string, ls: seq<Label>, i: nat)
    requires i < |ls|
  {
    Operator(ls[i]) == Some(s) && Measure(At(w, ls, i + 1), s) < Measure(At(w, ls, i), s)
  }

  /** At step i the newest token's Revert was called, and found that it has to wait. */
  ghost predicate FoundStuck(w: World, s: string, ls: seq<Label>, i: nat)
    requires i < |ls|
  {
    ls[i].CallRevert? && ls[i].s == s && Stuck(At(w, ls, i), s)
  }

  /** What a pass that meets no failure does for the drain between two points of a run. */
  ghost predicate Progressed(w: World, s: string, from: nat, ls: seq<Label>) {
    exists i | from <= i < |ls| :: OwnFall(w, s, ls, i) || FoundStuck(w, s, ls, i)
  }

  /** The last label of a run was progress, or found that it has to wait. */
  lemma LastFallIsProgress(start: World, s: string, from: nat, trace: seq<Label>, w: World)
    requires LastIn(start, trace, w) && from < |trace|
    requires var l := trace[|trace| - 1];
             || (Operator(l) == Some(s) && Measure(Next(w, l), s) < Measure(w, s))
             || (l.CallRevert? && l.s == s && Stuck(w, s))
    ensures Progressed(start, s, from, trace)
  {
    var i := |trace| - 1;
    assert OwnFall(start, s, trace, i) || FoundStuck(start, s, trace, i);
  }

  lemma ProgressWidens(w: World, s: string, from: nat, from': nat, ls: seq<Label>, ls': seq<Label>)
    requires from <= from' && ls <= ls' && Progressed(w, s, from', ls)
    ensures Progressed(w, s, from, ls')
  {
    var i :| from' <= i < |ls| && (OwnFall(w, s, ls, i) || FoundStuck(w, s, ls, i));
    assert ls[..i] == ls'[..i] && ls[..i + 1] == ls'[..i + 1];
    assert OwnFall(w, s, ls', i) || FoundStuck(w, s, ls', i);
  }

  lemma FallsAt(w: World, s: string, ls: seq<Label>, i: nat)
    requires i < |ls|
    ensures Falls(w, s, ls[..i + 1])
            == Falls(w, s, ls[..i]) + if Measure(At(w, ls, i + 1), s) < Measure(At(w, ls, i), s) then 1 else 0
  {
    assert ls[..i + 1][..i] == ls[..i];
  }

  ghost predicate OwnFallWithin(w: World, s: string, ls: seq<Label>, from: nat, to: nat)
    requires to <= |ls|
  {
    exists i | from <= i < to :: OwnFall(w, s, ls, i)
  }

  lemma ProgressSplits(w: World, s: string, from: nat, ls: seq<Label>)
    requires Progressed(w, s, from, ls)
    ensures OwnFallWithin(w, s, ls, from, |ls|) || exists i | from <= i < |ls| :: FoundStuck(w, s, ls, i)
  {
    var i :| from <= i < |ls| && (OwnFall(w, s, ls, i) || FoundStuck(w, s, ls, i));
  }

  /** The cuts split a run into pieces, each with progress of the scenario's own. */
  ghost predicate OwnFallBetween(w: World, s: string, ls: seq<Label>, cuts: seq<nat>) {
    && (forall k | 0 <= k < |cuts| :: cuts[k] <= |ls|)
    && forall k | 0 < k < |cuts| :: OwnFallWithin(w, s, ls, cuts[k - 1], cuts[k])
  }

  // A count that never goes back, and where it goes up.

  predicate NeverBack(count: seq<nat>) {
    forall i, j | 0 <= i <= j < |count| :: count[i] <= count[j]
  }

  predicate RisesAt(count: seq<nat>, i: nat) {
    i + 1 < |count| && count[i] < count[i + 1]
  }

  predicate RisesWithin(count: seq<nat>, from: nat, to: nat) {
    exists i | from <= i < to :: RisesAt(count, i)
  }

  predicate RisesBetween(count: seq<nat>, cuts: seq<nat>) {
    && (forall k | 0 <= k < |cuts| :: cuts[k] < |count|)
    && forall k | 0 < k < |cuts| :: RisesWithin(count, cuts[k - 1], cuts[k])
  }

  lemma {:induction false} RisesAddUp(count: seq<nat>, cuts: seq<nat>, k: nat)
    requires NeverBack(count) && RisesBetween(count, cuts) && k < |cuts|
    ensures k <= count[cuts[k]]
  {
    if k > 0 {
      RisesAddUp(count, cuts, k - 1);
      assert RisesWithin(count, cuts[k - 1], cuts[k]);
      var i :| cuts[k - 1] <= i < cuts[k] && RisesAt(count, i);
    }
  }

  /** The falls so far, at each point of a run. */
  ghost function FallCounts(w: World, s: string, ls: seq<Label>): seq<nat> {
    seq(|ls| + 1, n requires 0 <= n <= |ls| => Falls(w, s, ls[..n]))
  }

  lemma {:induction false} StepwiseIsMonotone(count: seq<nat>, i: nat, j: nat)
    requires i <= j < |count| && forall n | 0 <= n < |count| - 1 :: count[n] <= count[n + 1]
    ensures count[i] <= count[j]
    decreases j
  {
    if i < j {
      StepwiseIsMonotone(count, i, j - 1);
    }
  }

  lemma CountsGrow(w: World, s: string, ls: seq<Label>, n: nat)
    requires n < |ls|
    ensures FallCounts(w, s, ls)[n] <= FallCounts(w, s, ls)[n + 1]
  {
    FallsAt(w, s, ls, n);
  }

  lemma FallCountsNeverBack(w: World, s: string, ls: seq<Label>)
    ensures NeverBack(FallCounts(w, s, ls))
  {
    var count := FallCounts(w, s, ls);
    forall n | 0 <= n < |count| - 1
      ensures count[n] <= count[n + 1]
    {
      CountsGrow(w, s, ls, n);
    }
    StepwiseNeverBack(count);
  }

  lemma StepwiseNeverBack(count: seq<nat>)
    requires forall n | 0 <= n < |count| - 1 :: count[n] <= count[n + 1]
    ensures NeverBack(count)
  {
    forall i, j | 0 <= i <= j < |count|
      ensures count[i] <= count[j]
    {
      StepwiseIsMonotone(count, i, j);
    }
  }

  lemma OwnFallRises(w: World, s: string, ls: seq<Label>, from: nat, to: nat)
    requires to <= |ls| && OwnFallWithin(w, s, ls, from, to)
    ensures RisesWithin(FallCounts(w, s, ls), from, to)
  {
    var i :| from <= i < to && OwnFall(w, s, ls, i);
    CountRises(w, s, ls, i);
  }

  lemma CountRises(w: World, s: string, ls: seq<Label>, i: nat)
    requires i < |ls| && OwnFall(w, s, ls, i)
    ensures RisesAt(FallCounts(w, s, ls), i)
  {
    var count := FallCounts(w, s, ls);
    assert count[i] == Falls(w, s, ls[..i]) && count[i + 1] == Falls(w, s, ls[..i + 1]);
    FallsAt(w, s, ls, i);
  }

  lemma CutsAreFalls(w: World, s: string, ls: seq<Label>, cuts: seq<nat>)
    requires cuts != [] && OwnFallBetween(w, s, ls, cuts)
    ensures |cuts| - 1 <= Falls(w, s, ls)
  {
    var count, last := FallCounts(w, s, ls), |cuts| - 1;
    forall k | 0 < k < |cuts|
      ensures RisesWithin(count, cuts[k - 1], cuts[k])
    {
      OwnFallRises(w, s, ls, cuts[k - 1], cuts[k]);
    }
    FallCountsNeverBack(w, s, ls);
    RisesAddUp(count, cuts, last);
    assert count[cuts[last]] <= count[|ls|];
    assert ls[..|ls|] == ls;
  }

  /** Passes that meet no failure and find nothing to wait for are at most as many as the measure
      says, and three more for each setback: after more of them, no token is left. */
  lemma DrainPassesAreBounded(env: Env, w: World, s: string, ls: seq<Label>, cuts: seq<nat>)
    requires EnvOK(env) && env.freshReads && Inv(env, w) && Legal(env, w, ls)
    requires forall i | 0 <= i < |ls| :: Operator(ls[i]) == Some(s) ==> Drains(ls[i])
    requires OwnFallBetween(w, s, ls, cuts) && |cuts| > 1 + Measure(w, s) + 3 * Setbacks(w, s, ls)
    ensures exists i | 0 <= i < |ls| :: Tokens(At(w, ls, i), s) == []
  {
    CutsAreFalls(w, s, ls, cuts);
    if forall i | 0 <= i < |ls| :: Tokens(At(w, ls, i), s) != [] {
      DrainIsBounded(env, w, s, ls);
    }
  }

  /** Drain reaches rest: if the spec validates or the resource is being deleted, from any cluster,
    within as many steps as the measure says, the
      operator's own drain steps and the cluster's completions lead to a scenario without tokens and
      a restored world. */
  lemma DrainReachesRest(env: Env, w: World, s: string) returns (ls: seq<Label>)
    requires EnvOK(env) && env.freshReads && Inv(env, w) && Unblocked(w, s) && MayDrain(w, s)
    ensures DrainingRun(env, w, ls) && |ls| <= Measure(w, s)
    ensures Tokens(After(w, ls), s) == [] && AtRest(env, After(w, ls), s) && SameRunIn(w, After(w, ls), s)
  {
    ls := DrainOn(env, w, s, []);
    InvRun(env, w, ls);
    NoTokensMeansAtRest(env, After(w, ls), s);
  }

  // ---------- the two writes of a drain ----------

  lemma DropFalls(env: Env, w: World, s: string, name: string, st: Status)
    requires EnvOK(env) && env.freshReads && Inv(env, w) && Allowed(env, w, PutStatus(s, Drop(name), st))
    ensures Measure(Next(w, PutStatus(s, Drop(name), st)), s) < Measure(w, s)
  {
    DropsNewest(env, w, s, name, st);
    OwnDropLowers(env, s, w, name, st);
  }

  lemma CallFalls(env: Env, w: World, s: string, t: Token, rc: RunContext)
    requires EnvOK(env) && env.freshReads && Inv(env, w) && Allowed(env, w, CallRevert(s, t, rc))
    ensures RevertEffect(w, rc, t).outcome == Done
            || Measure(Next(w, CallRevert(s, t, rc)), s) < Measure(w, s) || Stuck(w, s)
  {
    var l := CallRevert(s, t, rc);
    OwnCallIsNewest(env, s, w, l);
    NewestIsOK(env, w, s);
    CallProgress(w, rc, s);
    CallKeepsTokens(w, l, s);
    MeasureFollowsWork(w, RevertEffect(w, rc, t).world, s);
  }

  lemma DropIsProgress(env: Env, start: World, s: string, from: nat, trace: seq<Label>, name: string, st: Status)
    requires EnvOK(env) && env.freshReads && Inv(env, start) && Legal(env, start, trace) && from < |trace|
    requires trace[|trace| - 1] == PutStatus(s, Drop(name), st)
    ensures Progressed(start, s, from, trace)
  {
    var w := LastStep(env, start, trace);
    DropFalls(env, w, s, name, st);
    LastFallIsProgress(start, s, from, trace, w);
  }

  // ---------- passes end the run ----------

  /** The resource is gone or no run is in flight. */
  predicate Over(w: World, s: string) {
    s !in w.mjs || w.mjs[s].status.currentRun.None?
  }

  /** What a pass without failures, between two points of a run, does for a run that is over: with
      tokens left it makes progress of its own, with none left it ends the run. */
  ghost predicate PassDrains(w: World, s: string, ls: seq<Label>, from: nat, to: nat)
    requires from <= to <= |ls|
  {
    if Tokens(At(w, ls, from), s) != [] then OwnFallWithin(w, s, ls, from, to) else Over(At(w, ls, to), s)
  }

  ghost predicate PassesDrain(w: World, s: string, ls: seq<Label>, cuts: seq<nat>) {
    && (forall i, j | 0 <= i <= j < |cuts| :: cuts[i] <= cuts[j] <= |ls|)
    && forall k | 0 < k < |cuts| :: PassDrains(w, s, ls, cuts[k - 1], cuts[k])
  }

  lemma {:induction false} PrefixSetbacks(w: World, s: string, ls: seq<Label>, n: nat)
    requires n <= |ls|
    ensures Setbacks(w, s, ls[..n]) <= Setbacks(w, s, ls)
  {
    if n < |ls| {
      PrefixSetbacks(w, s, ls[..|ls| - 1], n);
      assert ls[..|ls| - 1][..n] == ls[..n];
    } else {
      assert ls[..n] == ls;
    }
  }

  /** While a scenario is only drained, nothing brings a token back. */
  lemma NoTokenAppears(env: Env, w: World, s: string, l: Label)
    requires env.freshReads && Allowed(env, w, l) && Tokens(w, s) == [] && (Operator(l) == Some(s) ==> Drains(l))
    ensures Tokens(Next(w, l), s) == []
  {
    if Subject(l) == Some(s) {
      SubjectShape(w, l);
      if s in w.mjs {
        EditedShape(w.mjs[s], l);
      }
    } else {
      OtherMJsKept(w, l);
    }
  }

  lemma {:induction false} TokensStayAway(env: Env, w: World, s: string, ls: seq<Label>, i: nat, j: nat)
    requires env.freshReads && Legal(env, w, ls) && i <= j <= |ls| && Tokens(At(w, ls, i), s) == []
    requires forall k | 0 <= k < |ls| :: Operator(ls[k]) == Some(s) ==> Drains(ls[k])
    ensures Tokens(At(w, ls, j), s) == []
    decreases j
  {
    if i < j {
      TokensStayAway(env, w, s, ls, i, j - 1);
      AtNext(env, w, ls, j - 1);
      NoTokenAppears(env, At(w, ls, j - 1), s, ls[j - 1]);
    }
  }

  lemma PrefixFalls(w: World, s: string, ls: seq<Label>, n: nat, from: nat, to: nat)
    requires to <= n <= |ls| && OwnFallWithin(w, s, ls, from, to)
    ensures OwnFallWithin(w, s, ls[..n], from, to)
  {
    var i :| from <= i < to && OwnFall(w, s, ls, i);
    PrefixFall(w, s, ls, n, i);
  }

  lemma PrefixFall(w: World, s: string, ls: seq<Label>, n: nat, i: nat)
    requires i < n <= |ls| && OwnFall(w, s, ls, i)
    ensures OwnFall(w, s, ls[..n], i)
  {
    assert ls[..n][..i] == ls[..i] && ls[..n][..i + 1] == ls[..i + 1];
  }

  predicate DryAt(w: World, s: string, ls: seq<Label>, n: nat)
    requires n <= |ls|
  {
    Tokens(At(w, ls, n), s) == []
  }

  /** Passes that find tokens make progress, all of them. */
  lemma WetPassesFall(w: World, s: string, ls: seq<Label>, cuts: seq<nat>, n: nat, last: nat)
    requires PassesDrain(w, s, ls, cuts) && last < |cuts| && n == cuts[last]
    requires forall k | 0 <= k < last :: !DryAt(w, s, ls, cuts[k])
    ensures OwnFallBetween(w, s, ls[..n], cuts[..last + 1])
  {
    var front := cuts[..last + 1];
    forall k | 0 < k < |front|
      ensures OwnFallWithin(w, s, ls[..n], front[k - 1], front[k])
    {
      assert !DryAt(w, s, ls, cuts[k - 1]);
      assert PassDrains(w, s, ls, cuts[k - 1], cuts[k]);
      PrefixFalls(w, s, ls, n, cuts[k - 1], cuts[k]);
    }
  }

  lemma WetPassesAreFew(env: Env, w: World, s: string, ls: seq<Label>, cuts: seq<nat>, n: nat)
    requires EnvOK(env) && env.freshReads && Inv(env, w) && Legal(env, w, ls) && n <= |ls|
    requires forall i | 0 <= i < |ls| :: Operator(ls[i]) == Some(s) ==> Drains(ls[i])
    requires OwnFallBetween(w, s, ls[..n], cuts) && |cuts| > 1 + Measure(w, s) + 3 * Setbacks(w, s, ls)
    ensures DryAt(w, s, ls, n)
  {
    PrefixSetbacks(w, s, ls, n);
    LegalPrefix(env, w, ls, n);
    DrainPassesAreBounded(env, w, s, ls[..n], cuts);
    var i :| 0 <= i < n && Tokens(At(w, ls[..n], i), s) == [];
    assert ls[..n][..i] == ls[..i];
    TokensStayAway(env, w, s, ls, i, n);
  }

  /** Among so many passes one finds no token. */
  lemma PassesRunDry(env: Env, w: World, s: string, ls: seq<Label>, cuts: seq<nat>)
    requires EnvOK(env) && env.freshReads && Inv(env, w) && Legal(env, w, ls)
    requires forall i | 0 <= i < |ls| :: Operator(ls[i]) == Some(s) ==> Drains(ls[i])
    requires PassesDrain(w, s, ls, cuts) && |cuts| > 2 + Measure(w, s) + 3 * Setbacks(w, s, ls)
    ensures exists k | 0 <= k < |cuts| - 1 :: DryAt(w, s, ls, cuts[k])
  {
    var last := |cuts| - 2;
    if forall k | 0 <= k < last :: !DryAt(w, s, ls, cuts[k]) {
      WetPassesFall(w, s, ls, cuts, cuts[last], last);
      WetPassesAreFew(env, w, s, ls, cuts[..last + 1], cuts[last]);
    }
  }

  /** An expired run, or that of a deleted resource, ends: of the passes without failure and without
      having to wait, at most as many as the measure says, three more for each setback and one more,
      leave it in flight. */
  lemma DrainPassesEnd(env: Env, w: World, s: string, ls: seq<Label>, cuts: seq<nat>)
    requires EnvOK(env) && env.freshReads && Inv(env, w) && Legal(env, w, ls)
    requires forall i | 0 <= i < |ls| :: Operator(ls[i]) == Some(s) ==> Drains(ls[i])
    requires PassesDrain(w, s, ls, cuts) && |cuts| > 2 + Measure(w, s) + 3 * Setbacks(w, s, ls)
    ensures exists k | 0 <= k < |cuts| :: Over(At(w, ls, cuts[k]), s)
  {
    PassesRunDry(env, w, s, ls, cuts);
    var k :| 0 <= k < |cuts| - 1 && DryAt(w, s, ls, cuts[k]);
    assert PassDrains(w, s, ls, cuts[k + 1 - 1], cuts[k + 1]);
    assert Over(At(w, ls, cuts[k + 1]), s);
  }
}
