/** What a pass for one scenario may rely on while everybody else acts: other passes, users and the
    cluster. Passes for one scenario never overlap. */
module Interference {
  import opened Prelude
  import opened Names
  import opened Api
  import opened Actions
  import opened Helpers
  import opened Protocol
  import opened UndoLog
  import opened Invariants

  /** The scenario on whose behalf the operator takes a step. */
  function Operator(l: Label): Option<string> {
    match l
    case PutStatus(s, _, _) => Some(s)
    case CallEnsure(s, _, _, _, _) => Some(s)
    case CallRevert(s, _, _) => Some(s)
    case AddFinalizer(s) => Some(s)
    case DropFinalizer(s, _) => Some(s)
    case DisableExpired(s) => Some(s)
    case Leak(s, _) => Some(s)
    case _ => None
  }

  /** Steps of others during a pass for s: anything but another pass for s or an edit of its actions. */
  predicate Rely(s: string, l: Label) {
    Operator(l) != Some(s) && !(l.UserEdit? && l.s == s)
  }

  /** The operator's own writes for s along a run, in order. */
  function Own(s: string, ls: seq<Label>): seq<Label> {
    if ls == [] then []
    else
      var l := ls[|ls| - 1];
      Own(s, ls[..|ls| - 1]) + (if Operator(l) == Some(s) then [l] else [])
  }

  // ---------- what others leave in place ----------

  /** A version is never reused: whoever holds an old one can tell. */
  predicate VersionsAdvance(s: string, w: World, w': World) {
    && w.revision <= w'.revision
    && (s in w'.mjs ==> w'.mjs[s].version > w.revision || (s in w.mjs && w'.mjs[s] == w.mjs[s]))
  }

  /** The resource, once it has the finalizer, stays and keeps its status and actions. */
  predicate ResourceSteady(env: Env, s: string, w: World, w': World) {
    s in w.mjs && w.mjs[s].finalizer ==>
      && s in w'.mjs && w'.mjs[s].finalizer
      && (w.mjs[s].deleting ==> w'.mjs[s].deleting) && (w.mjs[s].forceRelease ==> w'.mjs[s].forceRelease)
      && w'.mjs[s].status == w.mjs[s].status && w'.mjs[s].audit == w.mjs[s].audit
      && w'.mjs[s].spec.actions == w.mjs[s].spec.actions
      && (s in env.quiet ==> w'.mjs[s].spec == w.mjs[s].spec && w'.mjs[s].deleting == w.mjs[s].deleting)
  }

  ghost predicate LeaksSteady(env: Env, s: string, w: World, w': World) {
    env.dotless ==> forall k | k in w.leaked && s + "." <= k :: k in w'.leaked && w'.leaked[k] == w.leaked[k]
  }

  ghost predicate TargetsSteady(env: Env, s: string, w: World, w': World) {
    && (env.freshReads ==> forall d | d in w'.deployments && OwnTarget(env, s, d) ::
          d in w.deployments && w'.deployments[d] == w.deployments[d])
    && (forall n | n in w'.jobs && w'.jobs[n].scenario == Some(s) :: n in w.jobs && w.jobs[n].scenario == Some(s))
    && (forall k | k in w'.chaos && w'.chaos[k].scenario == Some(s) :: k in w.chaos && w.chaos[k].scenario == Some(s))
  }

  ghost predicate Steady(env: Env, s: string, w: World, w': World) {
    && w.clock <= w'.clock && VersionsAdvance(s, w, w') && ResourceSteady(env, s, w, w')
    && LeaksSteady(env, s, w, w') && TargetsSteady(env, s, w, w')
  }

  lemma SteadyRefl(env: Env, s: string, w: World)
    ensures Steady(env, s, w, w)
  {
  }

  lemma SteadyTrans(env: Env, s: string, a: World, b: World, c: World)
    requires Steady(env, s, a, b) && Steady(env, s, b, c)
    ensures Steady(env, s, a, c)
  {
  }

  // ---------- why ----------

  lemma CallsConfined(env: Env, w: World, l: Label) returns (t: Token)
    requires l.CallEnsure? || l.CallRevert?
    requires Allowed(env, w, l)
    ensures Confined(w, Next(w, l), l.s, t) && t == l.token && l.rc.scenario == l.s
  {
    t := l.token;
    if l.CallEnsure? {
      EnsureIsConfined(w, l.rc, l.action, l.token, l.settled);
    } else {
      RevertIsConfined(w, l.rc, l.token);
    }
  }

  lemma OtherCallIsSteady(env: Env, s: string, w: World, l: Label)
    requires EnvOK(env) && Inv(env, w) && Allowed(env, w, l) && (l.CallEnsure? || l.CallRevert?) && l.s != s
    ensures Steady(env, s, w, Next(w, l))
  {
    var t := CallsConfined(env, w, l);
    if env.freshReads {
      assert t in Tokens(w, l.s);
      var i :| 0 <= i < |Tokens(w, l.s)| && Tokens(w, l.s)[i] == t;
      forall d | Targets(t, d)
        ensures OwnTarget(env, l.s, d)
      {
        TargetIsOwn(env, w, l.s, i, d);
      }
    }
  }

  lemma OtherLeakIsSteady(env: Env, s: string, w: World, l: Label)
    requires ScenarioName(env, s) && l.Leak? && l.s != s && Allowed(env, w, l)
    ensures Steady(env, s, w, Next(w, l))
  {
    forall k | env.dotless && k in w.leaked && s + "." <= k
      ensures k !in l.entries
    {
      if k in l.entries {
        PrefixDeterminesName(k, s, l.s, '.');
      }
    }
  }

  lemma SubjectSteady(env: Env, s: string, w: World, l: Label)
    requires Rely(s, l) && Subject(l) == Some(s) && Allowed(env, w, l)
    ensures VersionsAdvance(s, w, Next(w, l)) && ResourceSteady(env, s, w, Next(w, l))
  {
  }

  lemma WriteIsSteady(env: Env, s: string, w: World, l: Label)
    requires Rely(s, l) && Allowed(env, w, l) && !l.Leak? && (WritesNoToken(l) || l.PutStatus?)
    ensures Steady(env, s, w, Next(w, l))
  {
    OtherMJsKept(w, l);
    if Subject(l) == Some(s) {
      SubjectSteady(env, s, w, l);
    }
    NoTokenStepKeepsObjects(w, l);
    LeaksAndClock(w, l);
  }

  lemma ClusterIsSteady(env: Env, s: string, w: World, l: Label)
    requires Allowed(env, w, l) && ClusterLabel(l)
    ensures Steady(env, s, w, Next(w, l))
  {
    ClusterShrinks(env, w, l);
  }

  lemma RelyIsSteady(env: Env, s: string, w: World, l: Label)
    requires EnvOK(env) && Inv(env, w) && ScenarioName(env, s) && Allowed(env, w, l) && Rely(s, l)
    ensures Steady(env, s, w, Next(w, l))
  {
    if l.CallEnsure? || l.CallRevert? {
      OtherCallIsSteady(env, s, w, l);
    } else if l.Leak? {
      OtherLeakIsSteady(env, s, w, l);
    } else if ClusterLabel(l) {
      ClusterIsSteady(env, s, w, l);
    } else {
      WriteIsSteady(env, s, w, l);
    }
  }

  /** All that others do between two points of a pass. */
  lemma {:induction false} SteadyRun(env: Env, start: World, before: seq<Label>, after: seq<Label>, s: string)
    requires EnvOK(env) && Inv(env, start) && ScenarioName(env, s) && Legal(env, start, after) && before <= after
    requires forall i | |before| <= i < |after| :: Rely(s, after[i])
    ensures Legal(env, start, before)
    ensures Steady(env, s, After(start, before), After(start, after)) && Own(s, after) == Own(s, before)
  {
    if |before| == |after| {
      assert before == after;
      SteadyRefl(env, s, After(start, after));
    } else {
      var front := after[..|after| - 1];
      assert before <= front;
      SteadyRun(env, start, before, front, s);
      InvRun(env, start, front);
      RelyIsSteady(env, s, After(start, front), after[|after| - 1]);
      SteadyTrans(env, s, After(start, before), After(start, front), After(start, after));
    }
  }

  // ---------- what a pass knows stays true ----------

  lemma SteadyUndone(env: Env, s: string, w: World, w': World, t: Token)
    requires env.freshReads && Steady(env, s, w, w') && Undone(w, s, t)
    requires (t.ScaleToken? || t.DeployImageToken?) ==> OwnTarget(env, s, t.name)
    ensures Undone(w', s, t)
  {
  }

  lemma SteadyPlan(env: Env, s: string, w: World, w': World, rc: RunContext, a: Action, t: Token)
    requires env.freshReads && Steady(env, s, w, w') && PlanAgrees(w, rc, a, t)
    requires (t.ScaleToken? || t.DeployImageToken?) ==> OwnTarget(env, s, t.name)
    ensures PlanAgrees(w', rc, a, t)
  {
  }

  lemma SteadyRecord(env: Env, s: string, w: World, w': World, a: Action, rc: RunContext, st': Status)
    requires EnvOK(env) && env.freshReads && Steady(env, s, w, w')
    requires s in w.mjs && w.mjs[s].finalizer && ActionsOK(env, s, w.mjs[s].spec.actions)
    requires StrongStatus(env, w, s, Record(a, rc), w.mjs[s].status, st')
    ensures StrongStatus(env, w', s, Record(a, rc), w'.mjs[s].status, st')
  {
    assert a in w.mjs[s].spec.actions;
    SteadyPlan(env, s, w, w', rc, a, st'.activeActions[|w.mjs[s].status.activeActions|].token);
  }

  lemma SteadyDrop(env: Env, s: string, w: World, w': World, name: string, st': Status)
    requires EnvOK(env) && env.freshReads && Steady(env, s, w, w')
    requires s in w.mjs && w.mjs[s].finalizer && StatusOK(env, s, w.mjs[s])
    requires StrongStatus(env, w, s, Drop(name), w.mjs[s].status, st')
    ensures StrongStatus(env, w', s, Drop(name), w'.mjs[s].status, st')
  {
    var st := w.mjs[s].status;
    var i := |st.activeActions| - 1;
    assert TokenOK(env, s, st.currentRun.value, st.activeActions[i]);
    SteadyUndone(env, s, w, w', st.activeActions[i].token);
  }

  /** A status write that is right for what is durable now is right after others have acted. */
  lemma SteadyStatus(env: Env, s: string, w: World, w': World, why: Why, st': Status)
    requires EnvOK(env) && env.freshReads && Inv(env, w) && Steady(env, s, w, w')
    requires s in w.mjs && w.mjs[s].finalizer && StrongStatus(env, w, s, why, w.mjs[s].status, st')
    ensures StrongStatus(env, w', s, why, w'.mjs[s].status, st')
  {
    assert StatusOK(env, s, w.mjs[s]);
    match why {
      case Record(a, rc) => SteadyRecord(env, s, w, w', a, rc, st');
      case Drop(name) => SteadyDrop(env, s, w, w', name, st');
      case _ =>
    }
  }
}
