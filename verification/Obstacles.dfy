/** When exactly a call of an action fails, and what it reaches when it does not. The conditions are
    told from the spec and the objects in the cluster, not from the calls. */
module Obstacles {
  import opened Prelude
  import opened Names
  import opened Api
  import opened Actions
  import opened Helpers

  // ---------- what a stamp says ----------

  /** The stamp names the scenario, as "<scenario>/<run>" or by its bare name. */
  predicate StampNames(stamp: string, s: string) {
    '/' !in s && (stamp == s || s + "/" <= stamp)
  }

  lemma {:induction false} CutHoldsNoSeparator(stamp: string, sep: char)
    ensures sep !in CutBefore(stamp, sep)
    ensures sep !in stamp ==> CutBefore(stamp, sep) == stamp
  {
    if stamp != [] && stamp[0] != sep {
      CutHoldsNoSeparator(stamp[1..], sep);
    }
  }

  /** A stamp names one scenario: the one before its first '/'. */
  lemma StampNamesOne(stamp: string, s: string)
    ensures StampNames(stamp, s) <==> s == CutBefore(stamp, '/')
  {
    CutHoldsNoSeparator(stamp, '/');
    if '/' !in s {
      PrefixIffCut(stamp, s, '/');
    }
  }

  /** The stamp is that of a run of the scenario. */
  predicate StampedBy(stamp: string, s: string) {
    StampNames(stamp, s) && stamp != s
  }

  lemma StampedByIsPrefix(stamp: string, s: string)
    requires '/' !in s
    ensures StampedBy(stamp, s) <==> s + "/" <= stamp
  {
  }

  /** Somebody in the cluster with a run or tokens holds the Deployment against the scenario. */
  predicate HeldAgainst(w: World, dep: Deployment, me: string) {
    && dep.heldBy != "" && !StampedBy(dep.heldBy, me)
    && exists other | other in w.mjs :: StampNames(dep.heldBy, other) && InFlight(w.mjs[other])
  }

  lemma HeldAgainstLive(w: World, dep: Deployment, me: string)
    requires '/' !in me
    ensures HeldAgainst(w, dep, me) <==> HeldByOther(dep, me) && HolderLives(w, dep.heldBy)
  {
    StampedByIsPrefix(dep.heldBy, me);
    StampNamesOne(dep.heldBy, CutBefore(dep.heldBy, '/'));
    forall other | other in w.mjs && StampNames(dep.heldBy, other)
      ensures other == CutBefore(dep.heldBy, '/')
    {
      StampNamesOne(dep.heldBy, other);
    }
  }

  /** Scale respects a stamp exactly as long as the scenario it names is there with a run or tokens;
      otherwise it takes the Deployment over. */
  lemma ScaleTakesOverExactlyStale(w: World, rc: RunContext, a: Action, t: Token)
    requires '/' !in rc.scenario && t.ScaleToken? && a.scale.Some? && t.name in w.deployments
    ensures var dep, e := w.deployments[t.name], ScaleEnsure(w, rc, a, t);
            if HeldAgainst(w, dep, rc.scenario) then e == Effect(w, Error(HeldByAnother))
            else
              && e.outcome == Done && e.world.deployments.Keys == w.deployments.Keys
              && e.world.deployments[t.name]
                 == dep.(replicas := Some(a.scale.value.replicas), heldBy := rc.scenario + "/" + rc.runID)
  {
    HeldAgainstLive(w, w.deployments[t.name], rc.scenario);
  }

  /** DeployImage respects every stamp of somebody else, also when the scenario it names is gone. */
  lemma DeployImageNeverTakesOver(w: World, rc: RunContext, a: Action, t: Token, settled: bool)
    requires '/' !in rc.scenario && t.DeployImageToken? && a.deployImage.Some? && t.name in w.deployments
    ensures var stamp, e := w.deployments[t.name].heldBy, DeployImageEnsure(w, rc, a, t, settled);
            && (e.outcome == Error(HeldByAnother) <==> stamp != "" && !StampedBy(stamp, rc.scenario))
            && (e.outcome == Error(HeldByAnother) ==> e.world == w)
  {
    StampedByIsPrefix(w.deployments[t.name].heldBy, rc.scenario);
  }

  // ---------- specs that validate ----------

  /** The configurations that an action brings. */
  function Configured(a: Action): set<ActionType> {
    (if a.workload.Some? then {WorkloadType} else {})
    + (if a.scale.Some? then {ScaleType} else {})
    + (if a.deployImage.Some? then {DeployImageType} else {})
    + (if a.chaosMesh.Some? then {ChaosMeshType} else {})
    + (if a.dbExec.Some? then {DBExecType} else {})
  }

  lemma ConfiguredHas(a: Action)
    ensures WorkloadType in Configured(a) <==> a.workload.Some?
    ensures ScaleType in Configured(a) <==> a.scale.Some?
    ensures DeployImageType in Configured(a) <==> a.deployImage.Some?
    ensures ChaosMeshType in Configured(a) <==> a.chaosMesh.Some?
    ensures DBExecType in Configured(a) <==> a.dbExec.Some?
  {
  }

  /** An action is well-formed exactly if it brings one configuration, that of its type. */
  lemma WellFormedMeansOneConfiguration(a: Action)
    ensures ShapeOK(a) <==> Configured(a) == {a.atype}
  {
    ConfiguredHas(a);
    if ShapeOK(a) {
      assert forall x :: x in Configured(a) ==> x == a.atype;
      assert a.atype in Configured(a);
    } else {
      assert a.atype.OtherType? ==> a.atype !in Configured(a);
    }
  }

  /** An action that brings its configuration is never refused for the lack of one, and one that does
      not is never planned. */
  lemma ConfigurationDecides(w: World, rc: RunContext, a: Action, t: Token, settled: bool)
    ensures Plan(w, rc, a) in {Err(MissingConfig), Err(UnknownAction)} <==> a.atype !in Configured(a)
    ensures a.atype == TokenType(t) && a.atype in Configured(a) ==>
              EnsureEffect(w, rc, a, t, settled).outcome !in
                {Error(MissingConfig), Error(UnknownAction), Error(InvalidToken)}
  {
    ConfiguredHas(a);
  }

  // ---------- Plan ----------

  predicate ForeignJob(w: World, s: string, n: string) {
    n in w.jobs && w.jobs[n].scenario != Some(s)
  }

  predicate ForeignChaos(w: World, s: string, k: ChaosKey) {
    k in w.chaos && w.chaos[k].scenario != Some(s)
  }

  /** The image of the first container of that name. */
  predicate Shows(dep: Deployment, c: string, image: string) {
    exists i | 0 <= i < |dep.containers| ::
      && dep.containers[i].name == c && dep.containers[i].image == image
      && forall j | 0 <= j < i :: dep.containers[j].name != c
  }

  lemma ShowsImage(dep: Deployment, c: string, image: string)
    ensures Shows(dep, c, image) <==>
              ContainerIndex(dep.containers, c) >= 0 && ImageOf(dep.containers, c) == image
  {
    var i := ContainerIndex(dep.containers, c);
    if i >= 0 && dep.containers[i].image == image {
      assert dep.containers[i].name == c;
    }
  }

  predicate HasContainer(dep: Deployment, c: string) {
    exists i | 0 <= i < |dep.containers| :: dep.containers[i].name == c
  }

  lemma HasContainerIndex(dep: Deployment, c: string)
    ensures HasContainer(dep, c) <==> ContainerIndex(dep.containers, c) >= 0
  {
    var i := ContainerIndex(dep.containers, c);
    if i >= 0 {
      assert dep.containers[i].name == c;
    }
  }

  predicate NoImage(dep: Deployment, c: string) {
    !HasContainer(dep, c) || Shows(dep, c, "")
  }

  lemma NoImageShown(dep: Deployment, c: string)
    ensures NoImage(dep, c) <==> ImageOf(dep.containers, c) == ""
  {
    HasContainerIndex(dep, c);
    ShowsImage(dep, c, "");
  }

  /** The way back, if it is this one: what the spec says; if that says nothing, what the mark on the
      Deployment says; if there is none, what runs. */
  predicate WayBack(dep: Deployment, da: DeployImageAction, good: string) {
    && good != ""
    && (da.knownGoodImage in {"", good})
    && (da.knownGoodImage == "" ==>
          && (da.container in dep.knownGood ==> dep.knownGood[da.container] in {"", good})
          && (da.container !in dep.knownGood || dep.knownGood[da.container] == "" ==> Shows(dep, da.container, good)))
  }

  /** A well-formed DeployImage action is planned exactly if its target shows an image for the container
      and there is a way back other than the image it deploys; the token leads that way. */
  lemma DeployImagePlansWayBack(w: World, a: Action)
    requires a.deployImage.Some?
    ensures var da := a.deployImage.value;
            && (DeployImagePlan(w, a).Ok? <==>
                  && da.target in w.deployments && !NoImage(w.deployments[da.target], da.container)
                  && !WayBack(w.deployments[da.target], da, da.image))
            && (DeployImagePlan(w, a).Ok? ==>
                  var t := DeployImagePlan(w, a).value;
                  && t == DeployImageToken(da.target, da.container, t.goodImage, da.image)
                  && WayBack(w.deployments[da.target], da, t.goodImage))
  {
    var da := a.deployImage.value;
    if da.target in w.deployments {
      var dep := w.deployments[da.target];
      NoImageShown(dep, da.container);
      if da.image != "" {
        ShowsImage(dep, da.container, da.image);
      }
      if GoodImage(dep, da) != "" {
        ShowsImage(dep, da.container, GoodImage(dep, da));
      }
    }
  }

  /** The way back outlives the token: once the bad image is live, planning the same action again leads
      back to the same image, unless the bad image has no name. */
  lemma ReplanLeadsSameWay(w: World, rc: RunContext, a: Action, settled: bool)
    requires DeployImagePlan(w, a).Ok?
    requires !DeployImageEnsure(w, rc, a, DeployImagePlan(w, a).value, settled).outcome.Error?
    requires ImageOf(w.deployments[a.deployImage.value.target].containers, a.deployImage.value.container)
             != a.deployImage.value.image
    ensures var t := DeployImagePlan(w, a).value;
            DeployImagePlan(DeployImageEnsure(w, rc, a, t, settled).world, a)
            == if a.deployImage.value.image == "" then Err(NoSuchContainer) else Ok(t)
  {
    var t := DeployImagePlan(w, a).value;
    var dep := w.deployments[t.name];
    SetImageKeepsIndex(dep.containers, ContainerIndex(dep.containers, t.container), t.badImage, t.container);
  }

  /** What keeps a well-formed action from being planned. */
  predicate PlanBarred(w: World, rc: RunContext, a: Action)
    requires ShapeOK(a)
  {
    match a.atype
    case ScaleType => a.scale.value.target !in w.deployments
    case DeployImageType =>
      var da := a.deployImage.value;
      || da.target !in w.deployments || NoImage(w.deployments[da.target], da.container)
      || WayBack(w.deployments[da.target], da, da.image)
    case WorkloadType => ForeignJob(w, rc.scenario, a.workload.value.name)
    case ChaosMeshType =>
      ForeignChaos(w, rc.scenario, ChaosKey(a.chaosMesh.value.kind, ChaosName(a.chaosMesh.value, rc, a.name)))
    case DBExecType =>
      || ForeignJob(w, rc.scenario, ExecEnsureName(a.dbExec.value.name, rc.digest))
      || ForeignJob(w, rc.scenario, ExecRevertName(a.dbExec.value.name, rc.digest))
    case OtherType(_) => true
  }

  /** Plan fails exactly when the target or the way back is missing, or a name is somebody else's; a
      stamp on the target does not keep it. */
  lemma PlanFailsExactlyWhenBarred(w: World, rc: RunContext, a: Action)
    requires ShapeOK(a)
    ensures Plan(w, rc, a).Err? <==> PlanBarred(w, rc, a)
  {
    if a.atype == DeployImageType {
      DeployImagePlansWayBack(w, a);
    }
  }

  // ---------- Ensure ----------

  /** What keeps Ensure from converging: the target or container is gone, somebody else holds the target
      or the name, or the exec Job has failed. */
  predicate EnsureBarred(w: World, me: string, t: Token) {
    match t
    case ScaleToken(d, _) => d !in w.deployments || HeldAgainst(w, w.deployments[d], me)
    case DeployImageToken(d, c, _, _) =>
      || d !in w.deployments || !HasContainer(w.deployments[d], c)
      || (w.deployments[d].heldBy != "" && !StampedBy(w.deployments[d].heldBy, me))
    case WorkloadToken(n) => ForeignJob(w, me, n)
    case ChaosMeshToken(kind, n) => ForeignChaos(w, me, ChaosKey(kind, n))
    case DBExecToken(n, _, _) => ForeignJob(w, me, n) || (n in w.jobs && w.jobs[n].state == JobFailed)
  }

  /** What is left to wait for: the rollout of an image, or the end of an exec Job. */
  predicate StillToSee(w: World, t: Token, settled: bool) {
    match t
    case DeployImageToken(d, c, _, bad) =>
      !settled || d !in w.deployments || ImageOf(w.deployments[d].containers, c) != bad
    case DBExecToken(n, _, _) => n !in w.jobs || w.jobs[n].state != Succeeded
    case _ => false
  }

  /** The injection is live, or its exec Job is on its way. */
  predicate Launched(w: World, rc: RunContext, a: Action, t: Token) {
    if t.DBExecToken? then
      && t.ensureName in w.jobs && w.jobs[t.ensureName].scenario == Some(rc.scenario)
      && w.jobs[t.ensureName].state != JobFailed
    else Injected(w, rc, a, t)
  }

  /** Ensure of a well-formed action fails exactly when it is barred; otherwise one call launches the
      injection, and it reports done exactly if nothing is left to wait for. A failing call changes
      nothing, but that it clears a failed exec Job away. */
  lemma EnsureFailsExactlyWhenBarred(w: World, rc: RunContext, a: Action, t: Token, settled: bool)
    requires '/' !in rc.scenario && ShapeOK(a) && a.atype == TokenType(t)
    requires t.WorkloadToken? ==> a.workload.value.name == t.name
    ensures var e := EnsureEffect(w, rc, a, t, settled);
            && (e.outcome.Error? <==> EnsureBarred(w, rc.scenario, t))
            && (!e.outcome.Error? ==> Launched(e.world, rc, a, t))
            && (e.outcome == Done <==> !EnsureBarred(w, rc.scenario, t) && !StillToSee(w, t, settled))
            && (e.outcome.Error? ==>
                  e.world == if t.DBExecToken? && !ForeignJob(w, rc.scenario, t.ensureName)
                             then PutJob(w, t.ensureName, w.jobs[t.ensureName].(deleting := true)) else w)
  {
    match t {
      case ScaleToken(d, _) =>
        if d in w.deployments {
          ScaleTakesOverExactlyStale(w, rc, a, t);
        }
      case DeployImageToken(d, c, _, bad) =>
        if d in w.deployments {
          DeployImageLaunches(w, rc, a, t, settled);
        }
      case _ =>
    }
  }

  lemma DeployImageLaunches(w: World, rc: RunContext, a: Action, t: Token, settled: bool)
    requires '/' !in rc.scenario && a.deployImage.Some? && t.DeployImageToken? && t.name in w.deployments
    ensures var e := DeployImageEnsure(w, rc, a, t, settled);
            && (e.outcome.Error? <==> EnsureBarred(w, rc.scenario, t))
            && (e.outcome.Error? ==> e.world == w)
            && (!e.outcome.Error? ==> Injected(e.world, rc, a, t))
            && (e.outcome == Done <==> !EnsureBarred(w, rc.scenario, t) && !StillToSee(w, t, settled))
  {
    var dep := w.deployments[t.name];
    DeployImageNeverTakesOver(w, rc, a, t, settled);
    HasContainerIndex(dep, t.container);
    var i := ContainerIndex(dep.containers, t.container);
    if i >= 0 {
      SetImageKeepsIndex(dep.containers, i, t.badImage, t.container);
      assert rc.scenario + "/" <= Stamp(rc);
    }
  }

  // ---------- Revert ----------

  /** What keeps Revert from converging: its exec Job has failed, or its name is somebody else's. */
  predicate RevertBarred(w: World, me: string, t: Token) {
    && t.DBExecToken? && t.revert != []
    && (ForeignJob(w, me, t.revertName) || (t.revertName in w.jobs && w.jobs[t.revertName].state == JobFailed))
  }

  /** What Revert has to wait for: a rollback, an object of its own to go, or the end of an exec Job. */
  predicate StillToUndo(w: World, me: string, t: Token) {
    match t
    case ScaleToken(_, _) => false
    case DeployImageToken(d, c, _, bad) =>
      && d in w.deployments && (w.deployments[d].heldBy == "" || StampedBy(w.deployments[d].heldBy, me))
      && HasContainer(w.deployments[d], c) && ImageOf(w.deployments[d].containers, c) == bad
    case WorkloadToken(n) => n in w.jobs && w.jobs[n].scenario == Some(me)
    case ChaosMeshToken(kind, n) =>
      ChaosKey(kind, n) in w.chaos && w.chaos[ChaosKey(kind, n)].scenario == Some(me)
    case DBExecToken(_, n, revert) => revert != [] && (n !in w.jobs || w.jobs[n].state == Running)
  }

  /** What the wait is for has been set going. */
  predicate Undoing(w: World, me: string, t: Token) {
    match t
    case ScaleToken(_, _) => false
    case DeployImageToken(d, c, good, _) => d in w.deployments && ImageOf(w.deployments[d].containers, c) == good
    case WorkloadToken(n) => n in w.jobs && w.jobs[n].deleting
    case ChaosMeshToken(kind, n) => ChaosKey(kind, n) in w.chaos && w.chaos[ChaosKey(kind, n)].deleting
    case DBExecToken(_, n, _) => n in w.jobs && w.jobs[n].scenario == Some(me) && w.jobs[n].state == Running
  }

  /** Revert fails exactly when it is barred, waits exactly for what is still to be undone, having set it
      going, and else is done. */
  lemma RevertWaitsExactlyForUndoing(w: World, rc: RunContext, t: Token)
    requires '/' !in rc.scenario
    ensures var e := RevertEffect(w, rc, t);
            && (e.outcome.Error? <==> RevertBarred(w, rc.scenario, t))
            && (e.outcome.Wait? <==> !RevertBarred(w, rc.scenario, t) && StillToUndo(w, rc.scenario, t))
            && (e.outcome.Wait? ==> Undoing(e.world, rc.scenario, t))
  {
    if t.DeployImageToken? && t.name in w.deployments {
      var dep := w.deployments[t.name];
      StampedByIsPrefix(dep.heldBy, rc.scenario);
      HasContainerIndex(dep, t.container);
      var i := ContainerIndex(dep.containers, t.container);
      if i >= 0 {
        SetImageKeepsIndex(dep.containers, i, t.goodImage, t.container);
      }
    }
  }

  // ---------- names of chaos objects ----------

  function DefaultChaosName(s: string, action: string): string {
    "mj-" + s + "-" + action
  }

  /** A chaos object gets the name it is given, or one made from scenario and action, as it stands if
      that is a label. */
  lemma ChaosNameIsLabelGiven(ca: ChaosMeshAction, rc: RunContext, action: string)
    ensures IsLabel(ChaosName(ca, rc, action))
    ensures IsLabel(ca.name) ==> ChaosName(ca, rc, action) == ca.name
    ensures ca.name == "" && IsLabel(DefaultChaosName(rc.scenario, action)) ==>
              ChaosName(ca, rc, action) == DefaultChaosName(rc.scenario, action)
  {
    var given := if ca.name != "" then ca.name else DefaultChaosName(rc.scenario, action);
    SanitizeYieldsLabel(given);
    SanitizeFixesExactlyLabels(given);
  }

  lemma AfterTheMark(s: string, action: string)
    ensures DefaultChaosName(s, action)[..3] == "mj-" && DefaultChaosName(s, action)[3..] == s + "-" + action
  {
  }

  /** Some default names of the two scenarios are the same label. */
  ghost predicate MayShareChaosName(s: string, s': string) {
    exists a: string, a': string ::
      && a != "" && a' != "" && IsLabel(DefaultChaosName(s, a))
      && DefaultChaosName(s, a) == DefaultChaosName(s', a')
  }

  /** Default names tell the actions of one scenario apart; two scenarios of names up to 58 characters
      may share one exactly if one name continues the other after a '-'. The second to plan is then
      refused for a name conflict. */
  lemma DefaultChaosNamesCollideIffDashedPrefix(s: string, s': string)
    requires IsLabel(s) && IsLabel(s') && |s| <= 58 && |s'| <= 58
    ensures forall a, a' :: DefaultChaosName(s, a) == DefaultChaosName(s, a') ==> a == a'
    ensures MayShareChaosName(s, s') <==> s + "-" <= s' + "-" || s' + "-" <= s + "-"
  {
    forall a, a' | DefaultChaosName(s, a) == DefaultChaosName(s, a')
      ensures a == a'
    {
      assert a == DefaultChaosName(s, a)[|s| + 4..];
      assert a' == DefaultChaosName(s, a')[|s| + 4..];
    }
    if MayShareChaosName(s, s') {
      var a: string, a': string :| DefaultChaosName(s, a) == DefaultChaosName(s', a');
      var name := DefaultChaosName(s, a);
      AfterTheMark(s, a);
      AfterTheMark(s', a');
      assert s + "-" <= name[3..] && s' + "-" <= name[3..];
    }
    if s + "-" <= s' + "-" {
      DashedPrefixCollides(s, s');
    } else if s' + "-" <= s + "-" {
      DashedPrefixCollides(s', s);
    }
  }

  lemma DashedPrefixCollides(s: string, s': string)
    requires IsLabel(s) && IsLabel(s') && |s'| <= 58 && s + "-" <= s' + "-"
    ensures MayShareChaosName(s, s') && MayShareChaosName(s', s)
  {
    var name := DefaultChaosName(s', "x");
    assert IsLabel(name);
    var a := (s' + "-x")[|s| + 1..];
    assert s' + "-x" == s + "-" + a;
    AfterTheMark(s, a);
    AfterTheMark(s', "x");
    assert DefaultChaosName(s, a) == name[..3] + name[3..] == name;
    assert a != "";
  }
}
